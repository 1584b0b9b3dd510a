# Forma dependency declarations, modelled in Dafny

The forma build logic (a Gradle `buildSrc` module) lets each module script declare
its dependencies as values. A `FormaDependency` is one of three things:
`EmptyDependency`, a `NamedDependency` (a list of external coordinates, each with a
target configuration and a transitivity flag), or a `ProjectDependency` (a list of
projects of the same build, each with a target configuration). Pure constructors
build these values: `deps`, `transitiveDeps`, `String.dep` and the merging `deps`
overloads. `Project.applyDependencies` then registers every spec of its four
argument slots with Gradle's `DependencyHandler`.

The model has four modules:

- `Wrappers` (`wrappers.dfy`): Option, Either and Result. They stand in for
  funktionale's `Option`/`Either` and for Kotlin's exceptions.
- `Dependencies` (`dependencies.dfy`): the `ConfigurationType` targets and their
  configuration names. `DepSpec` and `ProjectSpec`. The `FormaDependency` union, with
  `NamedDependency` and `ProjectDependency` as subset types, and its
  `Option<Either<…>>` representation. The pure constructors. The reified
  `emptyDependency<T>()` factory, as a function over a type tag. What `forEach`
  produces (`Dispatch`), with the order in which it calls its actions.
- `Registry` (`handler.dfy`): Gradle's `DependencyHandler` as a class whose one
  field is an append-only log of registration calls. Each record holds the
  configuration name, the notation (a coordinate or a project), and the
  `isTransitive` value, if one was set. The three `forEach` functions and
  `applyDependencies` are methods that append to that log. `Registrations` is the
  log the methods are proved to produce, and the routing lemmas are stated about it.
- `Catalog` (`catalog.dfy`): five entries of the dependency catalog
  (`jetbrains.annotations`, `kotlin.stdlib_common`, `kotlin.stdlib`,
  `kotlin.stdlib_jdk7`, `kotlin.stdlib_jdk8`), used as a concrete case of
  merging that keeps duplicates.

A `forEach` action is a Kotlin callback that changes the handler. Here it is a pure
function from a spec to the registration calls that callback makes. The no-op
callback `{}` is `_ => []`.

Behaviour of the code worth stating explicitly:

- Merging `NamedDependency`/`ProjectDependency` values concatenates without
  deduplicating.
- `deps()` over projects with no arguments gives `ProjectDependency([])`, not
  `EmptyDependency`.
- `transitiveDeps` takes a `transitive` parameter that defaults to `true`.
- `emptyDependency<EmptyDependency>()` throws, because the `when` in
  dependencies.kt:44-49 compares only against the three other classes.

## Model

| member | source | states |
|---|---|---|
| `Dependencies.BuiltInNamesDistinct` | buildSrc/src/main/java/dependencies.kt:23-27 | `ConfigName` (the `ConfigurationType.name` constants) gives the four built-in targets pairwise different configuration names |
| `Dependencies.CustomNameIsVerbatim` | buildSrc/src/main/java/dependencies.kt:28 | `ConfigName(Custom(n))` is exactly `n`, so it shares a configuration with a built-in exactly when `n` is that built-in's name |
| `Dependencies.Dependency` | buildSrc/src/main/java/dependencies.kt:32-42 | the `dependency` property loses nothing: reading the variant back from it (`FromDepType`) gives the original dependency |
| `Dependencies.DependencyBijective` | buildSrc/src/main/java/dependencies.kt:32-42 | the three variants correspond one-to-one with the Option/Either nesting `DepType` (both round trips) |
| `Dependencies.TransitiveDeps` | buildSrc/src/main/java/dependencies.kt:69-70 | one spec per name, in argument order, each with that name, target Implementation and the given flag (default true) |
| `Dependencies.Deps` | buildSrc/src/main/java/dependencies.kt:66-67 | one spec per name, in argument order, each with target Implementation and `transitive = false` |
| `Dependencies.Dep` | buildSrc/src/main/java/dependencies.kt:81 | `name.dep` holds exactly one spec: the name, Implementation, non-transitive |
| `Dependencies.ProjectDeps` | buildSrc/src/main/java/dependencies.kt:72-73 | one ProjectSpec per handle, in argument order, each targeting Implementation |
| `Dependencies.MergeNamed` | buildSrc/src/main/java/dependencies.kt:75-76 | the merge holds as many specs as all arguments together; no arguments give the empty list; one argument gives that argument back |
| `Dependencies.MergeProjects` | buildSrc/src/main/java/dependencies.kt:78-79 | the same three facts for ProjectDependency and `.projects` |
| `Dependencies.MergeNamedAppend` | buildSrc/src/main/java/dependencies.kt:75-76 | merging `a + b` gives the merge of `a` followed by the merge of `b`: merging is order-preserving concatenation |
| `Dependencies.MergeProjectsAppend` | buildSrc/src/main/java/dependencies.kt:78-79 | the same concatenation law for project dependencies |
| `Dependencies.MergeNamedPair` | buildSrc/src/main/java/dependencies.kt:75-76 | `deps(a, b).names == a.names + b.names`, duplicates retained |
| `Dependencies.MergeProjectsPair` | buildSrc/src/main/java/dependencies.kt:78-79 | `deps(a, b).projects == a.projects + b.projects` |
| `Dependencies.MergeNamedMembers` | buildSrc/src/main/java/dependencies.kt:75-76 | a spec is in the merge if and only if some argument holds it |
| `Dependencies.MergeProjectsMembers` | buildSrc/src/main/java/dependencies.kt:78-79 | a project spec is in the merge if and only if some argument holds it |
| `Dependencies.DepsIsMergeOfDep` | buildSrc/src/main/java/dependencies.kt:66-81 | `deps(n1, …, nk)` equals the merge of `n1.dep, …, nk.dep` |
| `Dependencies.EmptyDependencyOf` | buildSrc/src/main/java/dependencies.kt:44-49 | the FormaDependency tag gives EmptyDependency; the NamedDependency and ProjectDependency tags give an empty instance of that class; the EmptyDependency tag fails with IllegalArgumentException "Illegal Empty dependency, expected EmptyDependency" |
| `Dependencies.DispatchInOrder` | buildSrc/src/main/java/dependencies.kt:51-61 | with one-output actions, `forEach` yields one output per spec: the name action's for each named spec in list order, the project action's for each project spec in list order, none for EmptyDependency |
| `Dependencies.DispatchUsesOwnAction` | buildSrc/src/main/java/dependencies.kt:51-64 | what `forEach` produces depends only on the action for the dependency's own kind |
| `Registry.ForEach` | buildSrc/src/main/java/dependencies.kt:51-61 | the handler's log grows by exactly what the chosen action produces for each spec, in order, and nothing else changes |
| `Registry.ForEachName` | buildSrc/src/main/java/dependencies.kt:63 | the one-action `forEach` on a NamedDependency appends the action's calls for each name spec, in order |
| `Registry.ForEachProject` | buildSrc/src/main/java/dependencies.kt:64 | the one-action `forEach` on a ProjectDependency appends the action's calls for each project spec, in order |
| `Registry.ApplyDependencies` | buildSrc/src/main/java/dependencies.kt:83-105 | the log grows by exactly `Registrations` of the four slots: main named specs through `AddToOwnConfiguration` (line 93), then project specs through `AddProjectToOwnConfiguration` (line 95), then test specs through `AddNamedTo`/`AddProjectTo` with "testImplementation" (lines 97-98), then android-test specs with "androidTestImplementation" (lines 101-102) |
| `Registry.RegistrationCount` | buildSrc/src/main/java/dependencies.kt:91-104 | the number of registrations equals the number of specs over the four slots |
| `Registry.MainSlotRouting` | buildSrc/src/main/java/dependencies.kt:92-94 | main named spec i is registration i, made by `AddToOwnConfiguration`: its own configuration name, its name, its transitive flag |
| `Registry.ProjectSlotRouting` | buildSrc/src/main/java/dependencies.kt:95 | project spec j comes right after the main named specs (registration number of named specs + j), made by `AddProjectToOwnConfiguration`: its own configuration name and no transitivity |
| `Registry.TestSlotRouting` | buildSrc/src/main/java/dependencies.kt:96-99 | test spec k is registered third (by `AddNamedTo`/`AddProjectTo`), to "testImplementation" whatever its own target; a named spec keeps its flag, a project spec carries none |
| `Registry.AndroidTestSlotRouting` | buildSrc/src/main/java/dependencies.kt:100-103 | android-test spec k is registered last (by `AddNamedTo`/`AddProjectTo`), to "androidTestImplementation" whatever its own target; a named spec keeps its flag, a project spec carries none |
| `Registry.DefaultsRegisterNothing` | buildSrc/src/main/java/dependencies.kt:85-88 | the default arguments are the `emptyDependency()` values for each slot's declared type, and together they register nothing |
| `Registry.ThreeNamedTwoProjects` | buildSrc/src/main/java/dependencies.kt:91-95 | three named specs and two project specs make exactly five registrations, listed in order with their configurations and flags |
| `Catalog.StdlibNames` | buildSrc/src/main/java/Deps.kt:61-65 | `kotlin.stdlib` is its own coordinate followed by annotations and stdlib-common |
| `Catalog.StdlibJdk8KeepsDuplicates` | buildSrc/src/main/java/Deps.kt:70-74 | `kotlin.stdlib_jdk8` has 8 specs and lists the three `stdlib` specs twice, so merging does not deduplicate |

## Left out

- The version and coordinate catalog (Deps.kt): it is static data. Only the five entries in `Catalog` are modelled.
- The `implementation`, `testImplementation` and `androidTestImplementation` helpers on `DependencyHandler`, `DependencyConstraintHandler` and `ArtifactHandler`, and the private `addDependencyTo` bridge (dependencies.kt:108-505): they delegate to Gradle APIs that are not part of this model. The log keeps only what `applyDependencies` passes them: the configuration name, the notation, and the transitivity it sets.
- `formaConfiguration.repositories(repositories)` (dependencies.kt:90): an external call into the Forma plugin, with no visible behaviour. `ApplyDependencies` therefore takes no FormaConfiguration.
- The module templates `android_library`, `api` and `kt_api`: plugin application, shared configuration and validators are calls into code that is not part of this model. What remains is argument forwarding.
- The `type` property of `FormaDependency` (dependencies.kt:34): it is `Implementation` for every variant and is read nowhere.
- `Custom` is not a Kotlin data class, so two `Custom` objects with the same name differ under Kotlin equality. Here they are equal datatype values. Nothing in the core compares targets.
- Gradle's `Project` handle is an opaque value identified by its path. Kotlin's reified `T::class` test is replaced by an explicit type tag.
- Exceptions raised by Gradle itself (an unknown configuration name, an unresolvable coordinate) are not modelled. The handler log accepts every registration.
