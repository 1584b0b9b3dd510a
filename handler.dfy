/** `Project.applyDependencies`: how the specs of its four argument slots are
    registered with Gradle's DependencyHandler, here an append-only log of
    registration calls. */
module Registry {
  import opened Wrappers
  import opened Dependencies

  /** What is registered: an external module coordinate or a project of the build. */
  datatype Notation = ExternalModule(coordinate: string) | ProjectNotation(project: Project)

  /** One registration call on the handler: the configuration name, the notation,
      and the `isTransitive` value set on the created dependency (None when the
      call configures no transitivity). */
  datatype Registration = Registration(configuration: string, notation: Notation, transitive: Option<bool>)

  const TestImplementation: string := "testImplementation"
  const AndroidTestImplementation: string := "androidTestImplementation"

  /** Gradle's DependencyHandler, seen only through the registrations made on it. */
  class DependencyHandler {
    var log: seq<Registration>

    constructor ()
      ensures log == []
    {
      log := [];
    }

    /** The handler receives `calls`, in order; nothing already registered changes. */
    method Perform(calls: seq<Registration>)
      modifies this
      ensures log == old(log) + calls
    {
      log := log + calls;
    }
  }

  /** `FormaDependency.forEach(nameAction, projectAction)`; an action maps a spec
      to the registration calls its callback makes. */
  method ForEach(h: DependencyHandler, d: FormaDependency,
                 nameAction: DepSpec -> seq<Registration>, projectAction: ProjectSpec -> seq<Registration>)
    modifies h
    ensures h.log == old(h.log) + Dispatch(d, nameAction, projectAction)
  {
    match d
    case Empty =>
    case Named(ns) =>
      var i := 0;
      while i < |ns|
        invariant 0 <= i <= |ns|
        invariant h.log == old(h.log) + FlatMap(nameAction, ns[..i])
      {
        assert ns[..i + 1][..i] == ns[..i];
        h.Perform(nameAction(ns[i]));
        i := i + 1;
      }
      assert ns[..i] == ns;
    case Projects(ps) =>
      var i := 0;
      while i < |ps|
        invariant 0 <= i <= |ps|
        invariant h.log == old(h.log) + FlatMap(projectAction, ps[..i])
      {
        assert ps[..i + 1][..i] == ps[..i];
        h.Perform(projectAction(ps[i]));
        i := i + 1;
      }
      assert ps[..i] == ps;
  }

  /** `NamedDependency.forEach(action) = forEach(action, {})`. */
  method ForEachName(h: DependencyHandler, d: NamedDependency, action: DepSpec -> seq<Registration>)
    modifies h
    ensures h.log == old(h.log) + FlatMap(action, d.names)
  {
    ForEach(h, d, action, (p: ProjectSpec) => []);
  }

  /** `ProjectDependency.forEach(action) = forEach({}, action)`. */
  method ForEachProject(h: DependencyHandler, d: ProjectDependency, action: ProjectSpec -> seq<Registration>)
    modifies h
    ensures h.log == old(h.log) + FlatMap(action, d.projects)
  {
    ForEach(h, d, (s: DepSpec) => [], action);
  }

  // ---------------------------------------------------------------------
  // The callbacks of applyDependencies

  /** `addDependencyTo(it.config.name, it.name) { isTransitive = it.transitive }`. */
  function AddToOwnConfiguration(s: DepSpec): seq<Registration> {
    [Registration(ConfigName(s.config), ExternalModule(s.name), Some(s.transitive))]
  }

  /** `add(it.config.name, it.project)`. */
  function AddProjectToOwnConfiguration(p: ProjectSpec): seq<Registration> {
    [Registration(ConfigName(p.config), ProjectNotation(p.project), None)]
  }

  /** `testImplementation(it.name) { isTransitive = it.transitive }` and its
      androidTest counterpart: a fixed configuration, the spec's own flag. */
  function AddNamedTo(configuration: string): DepSpec -> seq<Registration> {
    (s: DepSpec) => [Registration(configuration, ExternalModule(s.name), Some(s.transitive))]
  }

  /** `testImplementation(it.project)` and its androidTest counterpart. */
  function AddProjectTo(configuration: string): ProjectSpec -> seq<Registration> {
    (p: ProjectSpec) => [Registration(configuration, ProjectNotation(p.project), None)]
  }

  /** Everything `applyDependencies` registers, slot after slot. */
  function Registrations(dependencies: NamedDependency, projectDependencies: ProjectDependency,
                         testDependencies: FormaDependency, androidTestDependencies: FormaDependency): seq<Registration>
  {
    FlatMap(AddToOwnConfiguration, dependencies.names)
    + FlatMap(AddProjectToOwnConfiguration, projectDependencies.projects)
    + Dispatch(testDependencies, AddNamedTo(TestImplementation), AddProjectTo(TestImplementation))
    + Dispatch(androidTestDependencies, AddNamedTo(AndroidTestImplementation), AddProjectTo(AndroidTestImplementation))
  }

  /** `Project.applyDependencies`, with the defaults `emptyDependency()` gives each slot. */
  method ApplyDependencies(h: DependencyHandler,
                           dependencies: NamedDependency := Named([]),
                           projectDependencies: ProjectDependency := Projects([]),
                           testDependencies: FormaDependency := EmptyDependency,
                           androidTestDependencies: FormaDependency := EmptyDependency)
    modifies h
    ensures h.log == old(h.log) + Registrations(dependencies, projectDependencies, testDependencies, androidTestDependencies)
  {
    ghost var s1 := FlatMap(AddToOwnConfiguration, dependencies.names);
    ghost var s2 := FlatMap(AddProjectToOwnConfiguration, projectDependencies.projects);
    ghost var s3 := Dispatch(testDependencies, AddNamedTo(TestImplementation), AddProjectTo(TestImplementation));
    ghost var s4 := Dispatch(androidTestDependencies, AddNamedTo(AndroidTestImplementation), AddProjectTo(AndroidTestImplementation));
    ForEachName(h, dependencies, AddToOwnConfiguration);
    ForEachProject(h, projectDependencies, AddProjectToOwnConfiguration);
    ForEach(h, testDependencies, AddNamedTo(TestImplementation), AddProjectTo(TestImplementation));
    ForEach(h, androidTestDependencies, AddNamedTo(AndroidTestImplementation), AddProjectTo(AndroidTestImplementation));
    assert h.log == old(h.log) + s1 + s2 + s3 + s4;
    assert Registrations(dependencies, projectDependencies, testDependencies, androidTestDependencies) == s1 + s2 + s3 + s4;
  }

  // ---------------------------------------------------------------------
  // Properties of the registrations

  /** The number of registrations is the number of specs over the four slots. */
  lemma RegistrationCount(a: NamedDependency, b: ProjectDependency, c: FormaDependency, d: FormaDependency)
    ensures |Registrations(a, b, c, d)| == SpecCount(a) + SpecCount(b) + SpecCount(c) + SpecCount(d)
  {
    DispatchInOrder(a, AddToOwnConfiguration, AddProjectToOwnConfiguration);
    DispatchInOrder(b, AddToOwnConfiguration, AddProjectToOwnConfiguration);
    DispatchInOrder(c, AddNamedTo(TestImplementation), AddProjectTo(TestImplementation));
    DispatchInOrder(d, AddNamedTo(AndroidTestImplementation), AddProjectTo(AndroidTestImplementation));
  }

  /** Main named specs come first: spec i is registration i, under its own
      configuration and with its own transitivity. */
  lemma MainSlotRouting(a: NamedDependency, b: ProjectDependency, c: FormaDependency, d: FormaDependency, i: nat)
    requires i < |a.names|
    ensures var r := Registrations(a, b, c, d);
      i < |r| &&
      r[i] == Registration(ConfigName(a.names[i].config), ExternalModule(a.names[i].name), Some(a.names[i].transitive))
  {
    var s1 := FlatMap(AddToOwnConfiguration, a.names);
    var s2 := FlatMap(AddProjectToOwnConfiguration, b.projects);
    var s3 := Dispatch(c, AddNamedTo(TestImplementation), AddProjectTo(TestImplementation));
    var s4 := Dispatch(d, AddNamedTo(AndroidTestImplementation), AddProjectTo(AndroidTestImplementation));
    assert Registrations(a, b, c, d) == s1 + s2 + s3 + s4;
    FlatMapOfOne(AddToOwnConfiguration, a.names);
    FourPartIndex(s1, s2, s3, s4, i);
  }

  /** Project specs follow the main named specs: project spec j is registration
      `|names| + j`, under its own configuration and with no transitivity. */
  lemma ProjectSlotRouting(a: NamedDependency, b: ProjectDependency, c: FormaDependency, d: FormaDependency, j: nat)
    requires j < |b.projects|
    ensures var r := Registrations(a, b, c, d);
      |a.names| + j < |r| &&
      r[|a.names| + j] == Registration(ConfigName(b.projects[j].config), ProjectNotation(b.projects[j].project), None)
  {
    var s1 := FlatMap(AddToOwnConfiguration, a.names);
    var s2 := FlatMap(AddProjectToOwnConfiguration, b.projects);
    var s3 := Dispatch(c, AddNamedTo(TestImplementation), AddProjectTo(TestImplementation));
    var s4 := Dispatch(d, AddNamedTo(AndroidTestImplementation), AddProjectTo(AndroidTestImplementation));
    assert Registrations(a, b, c, d) == s1 + s2 + s3 + s4;
    FlatMapOfOne(AddToOwnConfiguration, a.names);
    FlatMapOfOne(AddProjectToOwnConfiguration, b.projects);
    FourPartIndex(s1, s2, s3, s4, j);
  }

  /** Test specs come third, all under "testImplementation" whatever their own
      target; named specs keep their transitivity and project specs carry none. */
  lemma TestSlotRouting(a: NamedDependency, b: ProjectDependency, c: FormaDependency, d: FormaDependency, k: nat)
    requires k < SpecCount(c)
    ensures var r := Registrations(a, b, c, d);
      var o3 := |a.names| + |b.projects|;
      o3 + k < |r| &&
      (c.Named? ==>
        r[o3 + k] == Registration("testImplementation", ExternalModule(c.names[k].name), Some(c.names[k].transitive))) &&
      (c.Projects? ==>
        r[o3 + k] == Registration("testImplementation", ProjectNotation(c.projects[k].project), None))
  {
    var s1 := FlatMap(AddToOwnConfiguration, a.names);
    var s2 := FlatMap(AddProjectToOwnConfiguration, b.projects);
    var s3 := Dispatch(c, AddNamedTo(TestImplementation), AddProjectTo(TestImplementation));
    var s4 := Dispatch(d, AddNamedTo(AndroidTestImplementation), AddProjectTo(AndroidTestImplementation));
    assert Registrations(a, b, c, d) == s1 + s2 + s3 + s4;
    FlatMapOfOne(AddToOwnConfiguration, a.names);
    FlatMapOfOne(AddProjectToOwnConfiguration, b.projects);
    FixedSlotRouting(c, TestImplementation);
    FourPartIndex(s1, s2, s3, s4, k);
  }

  /** Android-test specs come last, all under "androidTestImplementation" whatever
      their own target; named specs keep their transitivity and project specs carry none. */
  lemma AndroidTestSlotRouting(a: NamedDependency, b: ProjectDependency, c: FormaDependency, d: FormaDependency, k: nat)
    requires k < SpecCount(d)
    ensures var r := Registrations(a, b, c, d);
      var o4 := |a.names| + |b.projects| + SpecCount(c);
      o4 + k < |r| &&
      (d.Named? ==>
        r[o4 + k] == Registration("androidTestImplementation", ExternalModule(d.names[k].name), Some(d.names[k].transitive))) &&
      (d.Projects? ==>
        r[o4 + k] == Registration("androidTestImplementation", ProjectNotation(d.projects[k].project), None))
  {
    var s1 := FlatMap(AddToOwnConfiguration, a.names);
    var s2 := FlatMap(AddProjectToOwnConfiguration, b.projects);
    var s3 := Dispatch(c, AddNamedTo(TestImplementation), AddProjectTo(TestImplementation));
    var s4 := Dispatch(d, AddNamedTo(AndroidTestImplementation), AddProjectTo(AndroidTestImplementation));
    assert Registrations(a, b, c, d) == s1 + s2 + s3 + s4;
    FlatMapOfOne(AddToOwnConfiguration, a.names);
    FlatMapOfOne(AddProjectToOwnConfiguration, b.projects);
    FixedSlotRouting(c, TestImplementation);
    FixedSlotRouting(d, AndroidTestImplementation);
    FourPartIndex(s1, s2, s3, s4, k);
  }

  /** Indexing into each part of a four-part concatenation. */
  lemma FourPartIndex<T>(s1: seq<T>, s2: seq<T>, s3: seq<T>, s4: seq<T>, n: nat)
    ensures |s1 + s2 + s3 + s4| == |s1| + |s2| + |s3| + |s4|
    ensures n < |s1| ==> (s1 + s2 + s3 + s4)[n] == s1[n]
    ensures n < |s2| ==> (s1 + s2 + s3 + s4)[|s1| + n] == s2[n]
    ensures n < |s3| ==> (s1 + s2 + s3 + s4)[|s1| + |s2| + n] == s3[n]
    ensures n < |s4| ==> (s1 + s2 + s3 + s4)[|s1| + |s2| + |s3| + n] == s4[n]
  {
  }

  /** A slot with a fixed configuration registers each spec under that configuration,
      in order, named specs with their own transitivity and project specs with none. */
  lemma FixedSlotRouting(c: FormaDependency, configuration: string)
    ensures var s := Dispatch(c, AddNamedTo(configuration), AddProjectTo(configuration));
      |s| == SpecCount(c) &&
      (c.Named? ==> forall k :: 0 <= k < |c.names| ==>
        s[k] == Registration(configuration, ExternalModule(c.names[k].name), Some(c.names[k].transitive))) &&
      (c.Projects? ==> forall k :: 0 <= k < |c.projects| ==>
        s[k] == Registration(configuration, ProjectNotation(c.projects[k].project), None))
  {
    DispatchInOrder(c, AddNamedTo(configuration), AddProjectTo(configuration));
  }

  /** The default arguments are the values `emptyDependency()` builds for the
      slots' declared types, and they register nothing. */
  lemma DefaultsRegisterNothing()
    ensures EmptyDependencyOf(NamedDependencyType) == Success(Named([]))
    ensures EmptyDependencyOf(ProjectDependencyType) == Success(Projects([]))
    ensures EmptyDependencyOf(FormaDependencyType) == Success(EmptyDependency)
    ensures Registrations(Named([]), Projects([]), EmptyDependency, EmptyDependency) == []
  {
  }

  /** Three named specs in the main slot and two project specs in the project slot
      make exactly five registrations, in that order. */
  lemma ThreeNamedTwoProjects(p1: Project, p2: Project)
    ensures Registrations(Deps(["g:a:1", "g:b:1", "g:c:1"]), ProjectDeps([p1, p2]), EmptyDependency, EmptyDependency)
         == [Registration("implementation", ExternalModule("g:a:1"), Some(false)),
             Registration("implementation", ExternalModule("g:b:1"), Some(false)),
             Registration("implementation", ExternalModule("g:c:1"), Some(false)),
             Registration("implementation", ProjectNotation(p1), None),
             Registration("implementation", ProjectNotation(p2), None)]
  {
    var a := Deps(["g:a:1", "g:b:1", "g:c:1"]);
    var b := ProjectDeps([p1, p2]);
    RegistrationCount(a, b, EmptyDependency, EmptyDependency);
    MainSlotRouting(a, b, EmptyDependency, EmptyDependency, 0);
    MainSlotRouting(a, b, EmptyDependency, EmptyDependency, 1);
    MainSlotRouting(a, b, EmptyDependency, EmptyDependency, 2);
    ProjectSlotRouting(a, b, EmptyDependency, EmptyDependency, 0);
    ProjectSlotRouting(a, b, EmptyDependency, EmptyDependency, 1);
  }
}
