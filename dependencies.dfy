/** The dependency-declaration model of the forma build logic: configuration
    targets, dependency specs, the FormaDependency union, its pure
    constructors (`deps`, `transitiveDeps`, `String.dep`), the reified
    `emptyDependency` factory, and the order in which `forEach` calls its actions. */
module Dependencies {
  import opened Wrappers

  // ---------------------------------------------------------------------
  // Configuration targets

  /** The sealed ConfigurationType hierarchy. */
  datatype ConfigurationType =
    | Implementation
    | CompileOnly
    | RuntimeOnly
    | AnnotationProcessor
    | Custom(customName: string)

  /** The Gradle configuration name each target carries (`ConfigurationType.name`). */
  function ConfigName(c: ConfigurationType): string {
    match c
    case Implementation => "implementation"
    case CompileOnly => "compileOnly"
    case RuntimeOnly => "runtimeOnly"
    case AnnotationProcessor => "annotationProcessor"
    case Custom(n) => n
  }

  /** The four built-in targets have four different configuration names. */
  lemma BuiltInNamesDistinct(c1: ConfigurationType, c2: ConfigurationType)
    requires !c1.Custom? && !c2.Custom?
    ensures ConfigName(c1) == ConfigName(c2) <==> c1 == c2
  {
  }

  /** A custom target registers under exactly its own name, so `Custom("implementation")`
      lands in the same configuration as `Implementation`. */
  lemma CustomNameIsVerbatim(n: string, c: ConfigurationType)
    ensures ConfigName(Custom(n)) == n
    ensures ConfigName(Custom(n)) == ConfigName(c) <==> n == ConfigName(c)
  {
  }

  // ---------------------------------------------------------------------
  // Specs

  /** Opaque handle of a Gradle project of the same build, identified by its path. */
  datatype Project = Project(path: string)

  /** An external dependency: coordinate, target configuration, transitivity. */
  datatype DepSpec = DepSpec(name: string, config: ConfigurationType, transitive: bool := false)

  /** A dependency on another project of the same build. */
  datatype ProjectSpec = ProjectSpec(project: Project, config: ConfigurationType)

  // ---------------------------------------------------------------------
  // The dependency union

  /** The sealed FormaDependency hierarchy: the object EmptyDependency and the
      data classes NamedDependency(names) and ProjectDependency(projects). */
  datatype FormaDependency =
    | Empty
    | Named(names: seq<DepSpec>)
    | Projects(projects: seq<ProjectSpec>)

  type NamedDependency = d: FormaDependency | d.Named? witness Named([])
  type ProjectDependency = d: FormaDependency | d.Projects? witness Projects([])

  const EmptyDependency: FormaDependency := Empty

  /** `DepType`, the representation every FormaDependency hands to its superclass. */
  type DepType = Option<Either<seq<DepSpec>, seq<ProjectSpec>>>

  /** The `dependency` property: None, Some(Left(names)) or Some(Right(projects)). */
  function Dependency(d: FormaDependency): (t: DepType)
    ensures FromDepType(t) == d
  {
    match d
    case Empty => None
    case Named(ns) => Some(Left(ns))
    case Projects(ps) => Some(Right(ps))
  }

  /** The variant whose `dependency` is a given DepType. */
  function FromDepType(t: DepType): FormaDependency {
    match t
    case None => Empty
    case Some(Left(ns)) => Named(ns)
    case Some(Right(ps)) => Projects(ps)
  }

  /** The three variants and the Option/Either nesting are in one-to-one correspondence. */
  lemma DependencyBijective(d: FormaDependency, t: DepType)
    ensures FromDepType(Dependency(d)) == d
    ensures Dependency(FromDepType(t)) == t
  {
  }

  /** Number of specs a dependency holds, of either kind. */
  function SpecCount(d: FormaDependency): nat {
    match d
    case Empty => 0
    case Named(ns) => |ns|
    case Projects(ps) => |ps|
  }

  // ---------------------------------------------------------------------
  // Pure constructors

  /** `transitiveDeps(vararg names, transitive = true)`: one Implementation spec per name. */
  function TransitiveDeps(names: seq<string>, transitive: bool := true): (r: NamedDependency)
    ensures |r.names| == |names|
    ensures forall i :: 0 <= i < |names| ==> r.names[i] == DepSpec(names[i], Implementation, transitive)
  {
    if names == [] then Named([])
    else Named([DepSpec(names[0], Implementation, transitive)] + TransitiveDeps(names[1..], transitive).names)
  }

  /** `deps(vararg names: String)`: non-transitive Implementation specs, in argument order. */
  function Deps(names: seq<string>): (r: NamedDependency)
    ensures |r.names| == |names|
    ensures forall i :: 0 <= i < |names| ==> r.names[i] == DepSpec(names[i], Implementation, false)
  {
    TransitiveDeps(names, false)
  }

  /** `String.dep`: the one-name case of `deps`. */
  function Dep(name: string): (r: NamedDependency)
    ensures r.names == [DepSpec(name, Implementation, false)]
  {
    Deps([name])
  }

  /** `deps(vararg projects: Project)`: one Implementation project spec per handle. */
  function ProjectDeps(projects: seq<Project>): (r: ProjectDependency)
    ensures |r.projects| == |projects|
    ensures forall i :: 0 <= i < |projects| ==> r.projects[i] == ProjectSpec(projects[i], Implementation)
  {
    if projects == [] then Projects([])
    else Projects([ProjectSpec(projects[0], Implementation)] + ProjectDeps(projects[1..]).projects)
  }

  /** Total number of specs over a list of dependencies. */
  function TotalSpecs(ds: seq<FormaDependency>): nat {
    if ds == [] then 0 else SpecCount(ds[0]) + TotalSpecs(ds[1..])
  }

  /** `deps(vararg dependencies: NamedDependency)`: `flatMap { it.names }`. */
  function MergeNamed(ds: seq<NamedDependency>): (r: NamedDependency)
    ensures |r.names| == TotalSpecs(ds)
    ensures ds == [] ==> r.names == []
    ensures |ds| == 1 ==> r == ds[0]
  {
    if ds == [] then Named([]) else Named(ds[0].names + MergeNamed(ds[1..]).names)
  }

  /** `deps(vararg dependencies: ProjectDependency)`: `flatMap { it.projects }`. */
  function MergeProjects(ds: seq<ProjectDependency>): (r: ProjectDependency)
    ensures |r.projects| == TotalSpecs(ds)
    ensures ds == [] ==> r.projects == []
    ensures |ds| == 1 ==> r == ds[0]
  {
    if ds == [] then Projects([]) else Projects(ds[0].projects + MergeProjects(ds[1..]).projects)
  }

  /** Merging is concatenation: splitting the argument list splits the result. */
  lemma {:induction false} MergeNamedAppend(a: seq<NamedDependency>, b: seq<NamedDependency>)
    ensures MergeNamed(a + b).names == MergeNamed(a).names + MergeNamed(b).names
  {
    if a != [] {
      assert (a + b)[1..] == a[1..] + b;
      MergeNamedAppend(a[1..], b);
    } else {
      assert a + b == b;
    }
  }

  lemma {:induction false} MergeProjectsAppend(a: seq<ProjectDependency>, b: seq<ProjectDependency>)
    ensures MergeProjects(a + b).projects == MergeProjects(a).projects + MergeProjects(b).projects
  {
    if a != [] {
      assert (a + b)[1..] == a[1..] + b;
      MergeProjectsAppend(a[1..], b);
    } else {
      assert a + b == b;
    }
  }

  /** `deps(a, b)` is `a.names + b.names`: order kept, duplicates retained. */
  lemma MergeNamedPair(a: NamedDependency, b: NamedDependency)
    ensures MergeNamed([a, b]).names == a.names + b.names
  {
    MergeNamedAppend([a], [b]);
  }

  lemma MergeProjectsPair(a: ProjectDependency, b: ProjectDependency)
    ensures MergeProjects([a, b]).projects == a.projects + b.projects
  {
    MergeProjectsAppend([a], [b]);
  }

  /** A spec is in the merge exactly when some argument holds it. */
  lemma {:induction false} MergeNamedMembers(ds: seq<NamedDependency>, s: DepSpec)
    ensures s in MergeNamed(ds).names <==> exists i :: 0 <= i < |ds| && s in ds[i].names
  {
    if ds != [] {
      MergeNamedMembers(ds[1..], s);
      if s in MergeNamed(ds[1..]).names {
        var i :| 0 <= i < |ds[1..]| && s in ds[1..][i].names;
        assert s in ds[i + 1].names;
      }
      if exists i :: 0 <= i < |ds| && s in ds[i].names {
        var i :| 0 <= i < |ds| && s in ds[i].names;
        if i > 0 {
          assert s in ds[1..][i - 1].names;
        }
      }
    }
  }

  lemma {:induction false} MergeProjectsMembers(ds: seq<ProjectDependency>, s: ProjectSpec)
    ensures s in MergeProjects(ds).projects <==> exists i :: 0 <= i < |ds| && s in ds[i].projects
  {
    if ds != [] {
      MergeProjectsMembers(ds[1..], s);
      if s in MergeProjects(ds[1..]).projects {
        var i :| 0 <= i < |ds[1..]| && s in ds[1..][i].projects;
        assert s in ds[i + 1].projects;
      }
      if exists i :: 0 <= i < |ds| && s in ds[i].projects {
        var i :| 0 <= i < |ds| && s in ds[i].projects;
        if i > 0 {
          assert s in ds[1..][i - 1].projects;
        }
      }
    }
  }

  /** `deps(n1, ..., nk)` is the same as `deps(n1.dep, ..., nk.dep)`. */
  lemma {:induction false} DepsIsMergeOfDep(names: seq<string>)
    ensures Deps(names) == MergeNamed(seq(|names|, i requires 0 <= i < |names| => Dep(names[i])))
  {
    var parts := seq(|names|, i requires 0 <= i < |names| => Dep(names[i]));
    if names != [] {
      DepsIsMergeOfDep(names[1..]);
      assert parts[1..] == seq(|names[1..]|, i requires 0 <= i < |names[1..]| => Dep(names[1..][i]));
      assert Deps(names).names == [DepSpec(names[0], Implementation, false)] + Deps(names[1..]).names;
    }
  }

  // ---------------------------------------------------------------------
  // emptyDependency<T>()

  /** The classes `T` of `emptyDependency<T : FormaDependency>()` can be instantiated with. */
  datatype TypeTag =
    | FormaDependencyType
    | NamedDependencyType
    | ProjectDependencyType
    | EmptyDependencyType

  /** `T::class.simpleName`. */
  function SimpleName(t: TypeTag): string {
    match t
    case FormaDependencyType => "FormaDependency"
    case NamedDependencyType => "NamedDependency"
    case ProjectDependencyType => "ProjectDependency"
    case EmptyDependencyType => "EmptyDependency"
  }

  /** Whether `d` is an instance of the Kotlin class the tag names. */
  predicate IsInstance(d: FormaDependency, t: TypeTag) {
    match t
    case FormaDependencyType => true
    case NamedDependencyType => d.Named?
    case ProjectDependencyType => d.Projects?
    case EmptyDependencyType => d.Empty?
  }

  datatype IllegalArgumentException = IllegalArgumentException(message: string)

  /** `emptyDependency<T>()`: an empty instance of `T`, or IllegalArgumentException
      for the class the `when` does not list (EmptyDependency itself). */
  function EmptyDependencyOf(t: TypeTag): (r: Result<FormaDependency, IllegalArgumentException>)
    ensures r.Success? <==> t != EmptyDependencyType
    ensures r.Success? ==> IsInstance(r.value, t) && SpecCount(r.value) == 0
    ensures t == FormaDependencyType ==> r == Success(EmptyDependency)
    ensures r.Failure? ==> r.error.message == "Illegal Empty dependency, expected " + SimpleName(t)
  {
    match t
    case FormaDependencyType => Success(EmptyDependency)
    case NamedDependencyType => Success(Named([]))
    case ProjectDependencyType => Success(Projects([]))
    case EmptyDependencyType =>
      Failure(IllegalArgumentException("Illegal Empty dependency, expected " + SimpleName(t)))
  }

  // ---------------------------------------------------------------------
  // forEach

  /** Concatenation of `f` over `s`, left to right (built from the back, as a loop builds it). */
  function FlatMap<S, R>(f: S -> seq<R>, s: seq<S>): seq<R> {
    if s == [] then [] else FlatMap(f, s[..|s| - 1]) + f(s[|s| - 1])
  }

  /** An action that produces one element per call yields one element per input, in order. */
  lemma {:induction false} FlatMapOfOne<S, R>(f: S -> seq<R>, s: seq<S>)
    requires forall x :: |f(x)| == 1
    ensures |FlatMap(f, s)| == |s|
    ensures forall i :: 0 <= i < |s| ==> FlatMap(f, s)[i] == f(s[i])[0]
  {
    if s != [] {
      var init := s[..|s| - 1];
      FlatMapOfOne(f, init);
      forall i | 0 <= i < |s|
        ensures FlatMap(f, s)[i] == f(s[i])[0]
      {
        if i < |s| - 1 {
          assert s[i] == init[i];
        }
      }
    }
  }

  /** What `FormaDependency.forEach(nameAction, projectAction)` produces when each
      call of an action produces the outputs it returns: the name action over the
      names of a NamedDependency, the project action over the projects of a
      ProjectDependency, nothing for EmptyDependency. */
  function Dispatch<R>(d: FormaDependency, nameAction: DepSpec -> seq<R>, projectAction: ProjectSpec -> seq<R>): seq<R> {
    match d
    case Empty => []
    case Named(ns) => FlatMap(nameAction, ns)
    case Projects(ps) => FlatMap(projectAction, ps)
  }

  /** `forEach` calls the name action once per spec of a NamedDependency, in list
      order, and never the project action; the reverse for a ProjectDependency;
      neither for EmptyDependency. With actions that each produce one output, the
      outputs are those of the calls, one per spec, in order. */
  lemma DispatchInOrder<R>(d: FormaDependency, na: DepSpec -> seq<R>, pa: ProjectSpec -> seq<R>)
    requires forall s :: |na(s)| == 1
    requires forall p :: |pa(p)| == 1
    ensures |Dispatch(d, na, pa)| == SpecCount(d)
    ensures d.Named? ==> forall i :: 0 <= i < |d.names| ==> Dispatch(d, na, pa)[i] == na(d.names[i])[0]
    ensures d.Projects? ==> forall i :: 0 <= i < |d.projects| ==> Dispatch(d, na, pa)[i] == pa(d.projects[i])[0]
  {
    match d
    case Empty =>
    case Named(ns) => FlatMapOfOne(na, ns);
    case Projects(ps) => FlatMapOfOne(pa, ps);
  }

  /** The outputs of `forEach` depend only on the action of the dependency's own kind. */
  lemma DispatchUsesOwnAction<R>(d: FormaDependency, na: DepSpec -> seq<R>, na': DepSpec -> seq<R>,
                                 pa: ProjectSpec -> seq<R>, pa': ProjectSpec -> seq<R>)
    ensures d.Named? ==> Dispatch(d, na, pa) == Dispatch(d, na, pa')
    ensures d.Projects? ==> Dispatch(d, na, pa) == Dispatch(d, na', pa)
    ensures d.Empty? ==> Dispatch(d, na, pa) == []
  {
  }
}
