/**
 * The bootstrap procedure of `jakarta.config.Loader`: find the first
 * registered `Loader` provider visible from a class-loading scope (the
 * "primordial" loader), ask it to load a `Loader` at the empty path, and
 * return either the loader it hands back, or the primordial loader itself
 * when the answer is absence. Every other failure propagates.
 */
module Loader {
  import opened LoadOutcome

  /**
   * One provider entry as the service registry iterates it: a provider it
   * can instantiate, or one it cannot (a malformed provider-configuration
   * file, a class that fails to load or instantiate).
   */
  datatype Entry<L> = Provider(loader: L) | Unloadable

  /** A registered `Loader` provider and the class-loading scopes it is visible from. */
  datatype Registration<L, !S> = Registration(entry: Entry<L>, visibleFrom: S -> bool)

  /** The registry in registration order: the order in which the service registry yields providers. */
  type Registry<L, !S> = seq<Registration<L, S>>

  /** What `findFirst()` over the registry yields for a scope. */
  datatype Discovery<L> = Found(primordial: L) | NotFound | ConfigurationError

  /** No registration is visible from `scope`. */
  ghost predicate NoneVisible<L, S>(registry: Registry<L, S>, scope: S) {
    forall i :: 0 <= i < |registry| ==> !registry[i].visibleFrom(scope)
  }

  /** Registration `i` is visible from `scope` and none before it is. */
  ghost predicate FirstVisible<L, S>(registry: Registry<L, S>, scope: S, i: int) {
    && 0 <= i < |registry|
    && registry[i].visibleFrom(scope)
    && forall j :: 0 <= j < i ==> !registry[j].visibleFrom(scope)
  }

  /** What `findFirst()` yields when iteration stops at `e`. */
  function Reached<L>(e: Entry<L>): (d: Discovery<L>) {
    match e
    case Provider(p) => Found(p)
    case Unloadable => ConfigurationError
  }

  /**
   * `ServiceLoader.load(Loader.class, scope).findFirst()`: the providers
   * visible from `scope`, in registry order, are iterated lazily and only the
   * first one is instantiated.
   */
  function Discover<L, S>(registry: Registry<L, S>, scope: S): (d: Discovery<L>)
    ensures d.NotFound? <==> NoneVisible(registry, scope)
    ensures !d.NotFound? ==> exists i :: FirstVisible(registry, scope, i) && d == Reached(registry[i].entry)
    decreases |registry|
  {
    if registry == [] then NotFound
    else if registry[0].visibleFrom(scope) then Reached(registry[0].entry)
    else Discover(registry[1..], scope)
  }

  /** Registrations after the first visible one are never consulted. */
  lemma {:induction false} DiscoverIgnoresLaterRegistrations<L, S>(front: Registry<L, S>, back: Registry<L, S>, scope: S)
    requires !NoneVisible(front, scope)
    ensures Discover(front + back, scope) == Discover(front, scope)
  {
    assert front != [];
    assert (front + back)[0] == front[0];
    if !front[0].visibleFrom(scope) {
      assert (front + back)[1..] == front[1..] + back;
      var i :| 0 <= i < |front| && front[i].visibleFrom(scope);
      assert front[1..][i - 1] == front[i];
      DiscoverIgnoresLaterRegistrations(front[1..], back, scope);
    }
  }

  /** Registrations invisible from the scope are skipped. */
  lemma {:induction false} DiscoverSkipsInvisible<L, S>(front: Registry<L, S>, back: Registry<L, S>, scope: S)
    requires NoneVisible(front, scope)
    ensures Discover(front + back, scope) == Discover(back, scope)
  {
    if front != [] {
      assert (front + back)[0] == front[0];
      assert (front + back)[1..] == front[1..] + back;
      assert forall i :: 0 <= i < |front[1..]| ==> front[1..][i] == front[i + 1];
      DiscoverSkipsInvisible(front[1..], back, scope);
    } else {
      assert front + back == back;
    }
  }

  /**
   * The environment bootstrap runs in: the provider registry, the system
   * class loader's scope (used for a null class loader), the current
   * thread's context class loader (possibly null), and the `load` behaviour
   * of every loader handle.
   */
  datatype Env<!L, !S> = Env(registry: Registry<L, S>, systemScope: S, contextLoader: Option<S>, load: LoadFn<L>)

  /** The scope `ServiceLoader.load` searches: a null class loader means the system class loader. */
  function ScopeOf<S>(classLoader: Option<S>, systemScope: S): (scope: S) {
    match classLoader
    case Some(s) => s
    case None => systemScope
  }

  /** The self-check: `loader.load(List.of(), Loader.class)`. */
  function SelfCheck<L>(load: LoadFn<L>, loader: L): (outcome: Outcome<Obj<L>>) {
    load(loader, Some([]), Some(LoaderClass))
  }

  /** The result of a bootstrap: a loader handle, or the exception it throws. */
  datatype Bootstrapped<L> = Ready(handle: L) | Failed(error: Thrown)

  /**
   * `Loader.bootstrap(classLoader)`. An empty discovery throws
   * `NoSuchObjectException` before the self-check's `try`, so the catch of
   * absence does not apply to it. Inside the `try`, absence (thrown as
   * `NoSuchObjectException`) keeps the primordial loader, a returned loader
   * replaces it, and any other exception escapes. The returned object is
   * cast to `Loader`, which fails when a provider returns something else.
   */
  function Bootstrap<L, S>(env: Env<L, S>, classLoader: Option<S>): (r: Bootstrapped<L>)
    ensures var scope := ScopeOf(classLoader, env.systemScope);
      r == Failed(NoSuchObjectException) <==> NoneVisible(env.registry, scope)
    ensures var scope := ScopeOf(classLoader, env.systemScope);
      (exists i :: FirstVisible(env.registry, scope, i) && env.registry[i].entry.Unloadable?) ==>
        r == Failed(ServiceConfigurationError)
    ensures var scope := ScopeOf(classLoader, env.systemScope);
      r.Ready? ==>
        exists i :: FirstVisible(env.registry, scope, i) && env.registry[i].entry.Provider? &&
          var primordial := env.registry[i].entry.loader;
          (SelfCheck(env.load, primordial).Absent? && r.handle == primordial) ||
          SelfCheck(env.load, primordial) == Value(LoaderObj(r.handle))
    ensures var scope := ScopeOf(classLoader, env.systemScope);
      r.Failed? && r.error != NoSuchObjectException ==>
        exists i :: FirstVisible(env.registry, scope, i) &&
          match env.registry[i].entry
          case Unloadable => r.error == ServiceConfigurationError
          case Provider(primordial) =>
            var outcome := SelfCheck(env.load, primordial);
            (outcome.Failure? && r.error == ExceptionOf(outcome.kind)) ||
            (outcome.Value? && !outcome.value.LoaderObj? && r.error == ClassCastException)
  {
    match Discover(env.registry, ScopeOf(classLoader, env.systemScope))
    case NotFound => Failed(NoSuchObjectException)
    case ConfigurationError => Failed(ServiceConfigurationError)
    case Found(loader) =>
      var outcome := SelfCheck(env.load, loader);
      match ThrownBy(outcome)
      case None => if outcome.value.LoaderObj? then Ready(outcome.value.loader) else Failed(ClassCastException)
      case Some(NoSuchObjectException) => Ready(loader)
      case Some(e) => Failed(e)
  }

  /** `Loader.bootstrap()`: `bootstrap` applied to the current thread's context class loader. */
  function BootstrapFromContext<L, S>(env: Env<L, S>): (r: Bootstrapped<L>)
    ensures r == Bootstrap(env, env.contextLoader)
    ensures env.contextLoader.None? ==> r == Bootstrap(env, Some(env.systemScope))
  {
    Bootstrap(env, env.contextLoader)
  }

  /** The first visible registration is the one discovery stops at. */
  lemma DiscoverStopsAtFirstVisible<L, S>(registry: Registry<L, S>, scope: S, i: int)
    requires FirstVisible(registry, scope, i)
    ensures Discover(registry, scope) == Reached(registry[i].entry)
  {
  }

  /** An empty registry (as seen from the scope) fails with `NoSuchObjectException` and yields no handle. */
  lemma EmptyRegistryFails<L, S>(env: Env<L, S>, classLoader: Option<S>)
    requires NoneVisible(env.registry, ScopeOf(classLoader, env.systemScope))
    ensures Bootstrap(env, classLoader) == Failed(NoSuchObjectException)
    ensures !Bootstrap(env, classLoader).Ready?
  {
  }

  /** An unloadable first provider fails with `ServiceConfigurationError`, whatever follows it. */
  lemma UnloadableFirstProviderFails<L, S>(env: Env<L, S>, classLoader: Option<S>, i: int)
    requires FirstVisible(env.registry, ScopeOf(classLoader, env.systemScope), i)
    requires env.registry[i].entry.Unloadable?
    ensures Bootstrap(env, classLoader) == Failed(ServiceConfigurationError)
  {
  }

  /** When the self-check reports absence, bootstrap returns the primordial loader itself. */
  lemma AbsentSelfCheckKeepsPrimordial<L, S>(env: Env<L, S>, classLoader: Option<S>, i: int)
    requires FirstVisible(env.registry, ScopeOf(classLoader, env.systemScope), i)
    requires env.registry[i].entry.Provider?
    requires SelfCheck(env.load, env.registry[i].entry.loader).Absent?
    ensures Bootstrap(env, classLoader) == Ready(env.registry[i].entry.loader)
  {
  }

  /** When the self-check returns a loader, bootstrap returns that loader instead of the primordial one. */
  lemma ReturnedLoaderReplacesPrimordial<L, S>(env: Env<L, S>, classLoader: Option<S>, i: int, q: L)
    requires FirstVisible(env.registry, ScopeOf(classLoader, env.systemScope), i)
    requires env.registry[i].entry.Provider?
    requires SelfCheck(env.load, env.registry[i].entry.loader) == Value(LoaderObj(q))
    ensures Bootstrap(env, classLoader) == Ready(q)
  {
  }

  /** A self-check that returns an object which is not a loader makes the cast to `Loader` fail. */
  lemma NonLoaderValueFailsCast<L, S>(env: Env<L, S>, classLoader: Option<S>, i: int)
    requires FirstVisible(env.registry, ScopeOf(classLoader, env.systemScope), i)
    requires env.registry[i].entry.Provider?
    requires SelfCheck(env.load, env.registry[i].entry.loader).Value?
    requires !SelfCheck(env.load, env.registry[i].entry.loader).value.LoaderObj?
    ensures Bootstrap(env, classLoader) == Failed(ClassCastException)
  {
  }

  /**
   * A failing self-check propagates its own exception unchanged: it is not
   * turned into absence, and the primordial loader is not returned.
   */
  lemma FailingSelfCheckPropagates<L, S>(env: Env<L, S>, classLoader: Option<S>, i: int, k: FailureKind)
    requires FirstVisible(env.registry, ScopeOf(classLoader, env.systemScope), i)
    requires env.registry[i].entry.Provider?
    requires SelfCheck(env.load, env.registry[i].entry.loader) == Failure(k)
    ensures Bootstrap(env, classLoader) == Failed(ExceptionOf(k))
    ensures Bootstrap(env, classLoader) != Failed(NoSuchObjectException)
    ensures !Bootstrap(env, classLoader).Ready?
  {
  }

  /**
   * The cast to `Loader` never fails for a provider that honours the `load`
   * contract: a `ClassCastException` from bootstrap is then one the
   * self-check threw itself.
   */
  lemma HonoringProviderNeverFailsCast<L(!new), S>(env: Env<L, S>, classLoader: Option<S>)
    requires HonorsLoadContract(env.load)
    ensures Bootstrap(env, classLoader) == Failed(ClassCastException) ==>
      exists i :: FirstVisible(env.registry, ScopeOf(classLoader, env.systemScope), i) &&
        env.registry[i].entry.Provider? &&
        SelfCheck(env.load, env.registry[i].entry.loader) == Failure(ClassCast)
  {
  }

  /** A null class loader bootstraps from the system class loader's scope. */
  lemma NullClassLoaderUsesSystemScope<L, S>(env: Env<L, S>)
    ensures Bootstrap(env, None) == Bootstrap(env, Some(env.systemScope))
  {
  }

  /**
   * Bootstrap consults `load` only once, on the primordial loader, with the
   * empty path and `Loader.class`: two environments that discover the same
   * primordial loader and agree on that one call give the same result. With
   * a fixed registry, repeated bootstraps therefore give the same result.
   */
  lemma BootstrapDependsOnlyOnSelfCheck<L, S>(env1: Env<L, S>, classLoader1: Option<S>, env2: Env<L, S>, classLoader2: Option<S>)
    requires Discover(env1.registry, ScopeOf(classLoader1, env1.systemScope))
          == Discover(env2.registry, ScopeOf(classLoader2, env2.systemScope))
    requires Discover(env1.registry, ScopeOf(classLoader1, env1.systemScope)).Found? ==>
      var p := Discover(env1.registry, ScopeOf(classLoader1, env1.systemScope)).primordial;
      env1.load(p, Some([]), Some(LoaderClass)) == env2.load(p, Some([]), Some(LoaderClass))
    ensures Bootstrap(env1, classLoader1) == Bootstrap(env2, classLoader2)
  {
  }
}
