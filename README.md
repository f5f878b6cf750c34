# Jakarta Config `Loader` bootstrap, modelled in Dafny

This project models the core of the Jakarta Config API's `Loader` interface:

- the outcome contract of `Loader.load(List, Class)`: a configuration object of the requested class, absence (thrown as `NoSuchObjectException`), or a failure: the exceptions its contract lists (`InvalidConfigurationClassException`, `IllegalArgumentException`, `NullPointerException`, `ConfigException`), or anything else a provider lets escape (`ServiceConfigurationError`, `ClassCastException`, any other unchecked exception or error);
- `Loader.bootstrap(ClassLoader)`: the first provider that the service registry yields for the class loader is the *primordial* loader. If there is none, `NoSuchObjectException` is thrown. Otherwise the primordial loader is asked to `load(List.of(), Loader.class)`. Absence keeps the primordial loader. A returned loader replaces it. Every other exception propagates;
- `Loader.bootstrap()`: `bootstrap` applied to the current thread's context class loader.

`load_outcome.dfy` (module `LoadOutcome`) holds the outcome datatype `Outcome = Value | Absent | Failure(kind)`. It also holds the exceptions a caller observes (`ThrownBy`) and the contract a provider's `load` must honour (`HonorsLoadContract`). `loader.dfy` (module `Loader`) holds the bootstrap procedure and its properties.

Modelling choices:

- **Service registry.** `ServiceLoader.load(Loader.class, classLoader)` is an ordered `Registry`. Each registration says from which class-loading scopes it is visible. Its entry is a provider the registry can instantiate, or an `Unloadable` one. An unloadable entry stands for a `ServiceConfigurationError` during iteration. `findFirst()` is `Discover`: it walks the registry in order and stops at the first visible registration. Later registrations are never touched.
- **Null class loader.** A null class loader means the system class loader (`ScopeOf`). The context class loader may itself be null (`Env.contextLoader`).
- **Providers.** A provider's `load` is a total function `LoadFn` from (loader handle, nullable path, nullable class) to an `Outcome`. It is the same function for the primordial loader and for any loader a self-check returns. A `Value` always carries an object, so "never returns null" holds by construction.
- **The try/catch at lines 225-231.** `Bootstrap` dispatches on the exception the self-check throws (`ThrownBy`), as the catch clause does. Only `NoSuchObjectException` is caught. `ExceptionOf` proves that no failure kind is thrown as `NoSuchObjectException`, so a failure is never downgraded to absence. `EveryNonAbsenceExceptionIsAFailure` proves that every other exception can escape a failing `load`.
- **The cast.** Line 226 returns the result of a generic `load` as a `Loader`, so a provider that returns some other object makes the implicit cast throw `ClassCastException`. `HonoringProviderNeverFailsCast` shows that, for a provider that honours the `load` contract (`HonorsLoadContract`: an object it returns for `Loader.class` is a loader), a `ClassCastException` from bootstrap can only be one the self-check threw itself.

Where the documentation and the code differ, the model follows the code:

- The documentation of `bootstrap(ClassLoader)` (lines 167-169) says `load` is invoked with `Loader.class` "as its sole argument". The code passes the empty path and `Loader.class` (line 226), and so does `SelfCheck`.
- The documentation names `ServiceConfigurationError` for discovery problems (lines 138-140, 214-216). An empty registry raises `NoSuchObjectException` instead (line 224). That exception is thrown before the `try` at line 225, so the catch at line 227 does not turn it into a primordial loader (`EmptyRegistryFails`). In the model, `ServiceConfigurationError` is the outcome of an unloadable first provider and of a self-check that throws it. A failure of `ServiceLoader.load` itself is not modelled (see "Left out").

## Model

| member | source | states |
|---|---|---|
| `LoadOutcome.ExceptionOf` | api/src/main/java/jakarta/config/Loader.java:97-111 | a failing `load` is never thrown as `NoSuchObjectException`, so failure is never mistaken for absence |
| `LoadOutcome.EveryNonAbsenceExceptionIsAFailure` | api/src/main/java/jakarta/config/Loader.java:97-111 | every exception other than `NoSuchObjectException`, including `ServiceConfigurationError` and `ClassCastException`, can escape a failing `load` |
| `LoadOutcome.ThrownBy` | api/src/main/java/jakarta/config/Loader.java:88-111 | a caller of `load` sees no exception exactly for a returned object, `NoSuchObjectException` exactly for absence, and the failure's own exception otherwise |
| `Loader.Discover` | api/src/main/java/jakarta/config/Loader.java:222-224 | find-first finds nothing exactly when no registration is visible from the scope; otherwise it stops at the first visible registration in registry order, yielding its provider or a configuration error |
| `Loader.DiscoverStopsAtFirstVisible` | api/src/main/java/jakarta/config/Loader.java:159-165 | the primordial loader is the provider of the first registration visible from the scope |
| `Loader.DiscoverIgnoresLaterRegistrations` | api/src/main/java/jakarta/config/Loader.java:222-223 | registrations after the first visible one never affect discovery |
| `Loader.DiscoverSkipsInvisible` | api/src/main/java/jakarta/config/Loader.java:222-223 | registrations invisible from the scope are skipped, whatever they hold |
| `Loader.Bootstrap` | api/src/main/java/jakarta/config/Loader.java:221-232 | bootstrap fails with `NoSuchObjectException` exactly when no provider is visible; fails with `ServiceConfigurationError` when the first visible provider cannot be loaded; a returned handle is either the primordial loader after an absent self-check or the loader the self-check returned; any other failure is either that `ServiceConfigurationError`, the self-check's own exception, or the `ClassCastException` of casting a non-loader value |
| `Loader.BootstrapFromContext` | api/src/main/java/jakarta/config/Loader.java:147-149 | `bootstrap()` behaves as `bootstrap` on the context class loader, and as the system class loader when that is null |
| `Loader.EmptyRegistryFails` | api/src/main/java/jakarta/config/Loader.java:222-227 | with no visible provider, bootstrap fails with `NoSuchObjectException` and yields no handle; the catch of absence does not apply |
| `Loader.UnloadableFirstProviderFails` | api/src/main/java/jakarta/config/Loader.java:214-216 | an unloadable first visible provider makes bootstrap fail with `ServiceConfigurationError` |
| `Loader.AbsentSelfCheckKeepsPrimordial` | api/src/main/java/jakarta/config/Loader.java:227-230 | an absent self-check makes bootstrap return exactly the primordial loader |
| `Loader.ReturnedLoaderReplacesPrimordial` | api/src/main/java/jakarta/config/Loader.java:226 | a self-check that returns loader `q` makes bootstrap return `q` |
| `Loader.NonLoaderValueFailsCast` | api/src/main/java/jakarta/config/Loader.java:226 | a self-check that returns a non-loader object makes bootstrap fail with `ClassCastException` |
| `Loader.FailingSelfCheckPropagates` | api/src/main/java/jakarta/config/Loader.java:225-231 | a failing self-check propagates its own exception unchanged; bootstrap then neither returns a handle nor reports absence |
| `Loader.HonoringProviderNeverFailsCast` | api/src/main/java/jakarta/config/Loader.java:85-88 | for a provider satisfying `HonorsLoadContract` (null arguments fail with a null-pointer failure, and an object returned for `Loader.class` is a loader; lines 67-68, 85-88, 109-111), a `ClassCastException` from bootstrap is one the self-check (`SelfCheck`) threw, never one from the cast |
| `Loader.NullClassLoaderUsesSystemScope` | api/src/main/java/jakarta/config/Loader.java:203-207 | a null class loader bootstraps exactly as the system class loader does (`ScopeOf`) |
| `Loader.BootstrapDependsOnlyOnSelfCheck` | api/src/main/java/jakarta/config/Loader.java:226 | bootstrap calls `load` only once (`SelfCheck`), on the primordial loader, with the empty path and `Loader.class`; with a fixed registry and fixed `load` behaviour, repeated bootstraps give the same result |

## Left out

- Class-loader and reflection semantics of `ServiceLoader` (lines 203-210, 222): replaced by an ordered registry with a visibility predicate per registration.
- The `ServiceConfigurationError` that `ServiceLoader.load` itself can throw (an inaccessible service type, or a calling module that does not declare `uses`; lines 138-140, 214-216): not modelled. With it, bootstrap would throw that error even when no provider is visible, so `Loader.Bootstrap`'s clause "`NoSuchObjectException` exactly when nothing is visible" assumes that `ServiceLoader.load` succeeds.
- The debug logging in the catch clause (lines 228-229): an output side effect with no bearing on the result.
- Thread safety of `load` and `bootstrap` (lines 72-73, 125-126, 189-190): the model is sequential.
- Indeterminate values (lines 75-77, 192-195): a provider's `load` is a fixed function here. Repeatability of bootstrap is shown only for a fixed `load` behaviour.
- The rules for what makes a class a valid configuration class, for when an object is "of" a requested class, and for path namespacing (lines 58-65): the source leaves them undefined, and the model keeps them abstract. The one rule the model fixes is that an object of `Loader.class` is a loader (`HonorsLoadContract`), which the cast at line 226 relies on.
- A provider that breaks the "never returns null" rule of `load` (lines 67-68): a `Value` always holds an object, so the null that `bootstrap` would then pass on is not modelled.
- Messages and causes carried by exceptions, and the four delegating constructors of `InvalidConfigurationClassException` (InvalidConfigurationClassException.java:33-66): only the exception class is modelled, as the failure kind `InvalidConfigurationClass`.
- Object identity of loaders: a handle `L` stands for a provider, not for a Java object. Each lookup may instantiate a fresh provider, and a self-check may return a fresh or a shared delegate, so two real bootstraps may or may not return the same object; the model's "same result" means the same provider.
- The exception class hierarchy (for example, `InvalidConfigurationClassException` extends `ConfigException`): the model only needs to know whether an exception is `NoSuchObjectException`.
