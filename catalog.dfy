/** Five entries of the dependency catalog (`jetbrains.annotations` and the Kotlin
    standard-library group), used as a concrete instance of merging named dependencies. */
module Catalog {
  import opened Dependencies

  const KotlinVersion: string := "1.4.0"
  const AnnotationsVersion: string := "20.0.0"

  const Annotations: NamedDependency := Dep("org.jetbrains:annotations:" + AnnotationsVersion)
  const StdlibCommon: NamedDependency := Dep("org.jetbrains.kotlin:kotlin-stdlib-common:" + KotlinVersion)
  const Stdlib: NamedDependency :=
    MergeNamed([Dep("org.jetbrains.kotlin:kotlin-stdlib:" + KotlinVersion), Annotations, StdlibCommon])
  const StdlibJdk7: NamedDependency :=
    MergeNamed([Dep("org.jetbrains.kotlin:kotlin-stdlib-jdk7:" + KotlinVersion), Stdlib])
  const StdlibJdk8: NamedDependency :=
    MergeNamed([Dep("org.jetbrains.kotlin:kotlin-stdlib-jdk8:" + KotlinVersion), Stdlib, StdlibJdk7])

  /** `kotlin.stdlib` is its own coordinate followed by annotations and stdlib-common. */
  lemma StdlibNames()
    ensures Stdlib.names == Dep("org.jetbrains.kotlin:kotlin-stdlib:" + KotlinVersion).names
                            + Annotations.names + StdlibCommon.names
  {
    MergeNamedAppend([Dep("org.jetbrains.kotlin:kotlin-stdlib:" + KotlinVersion)], [Annotations, StdlibCommon]);
    MergeNamedPair(Annotations, StdlibCommon);
  }

  /** `kotlin.stdlib_jdk8` lists the three specs of `stdlib` twice, once directly and
      once through `stdlib_jdk7`: merging keeps duplicates. */
  lemma StdlibJdk8KeepsDuplicates()
    ensures |StdlibJdk8.names| == 8
    ensures StdlibJdk8.names[1..4] == Stdlib.names
    ensures StdlibJdk8.names[5..8] == Stdlib.names
    ensures StdlibJdk8.names[1] == StdlibJdk8.names[5] == DepSpec("org.jetbrains.kotlin:kotlin-stdlib:1.4.0", Implementation, false)
  {
    var jdk7 := Dep("org.jetbrains.kotlin:kotlin-stdlib-jdk7:" + KotlinVersion);
    var jdk8 := Dep("org.jetbrains.kotlin:kotlin-stdlib-jdk8:" + KotlinVersion);
    StdlibNames();
    MergeNamedPair(jdk7, Stdlib);
    MergeNamedAppend([jdk8], [Stdlib, StdlibJdk7]);
    MergeNamedPair(Stdlib, StdlibJdk7);
    var all := jdk8.names + Stdlib.names + jdk7.names + Stdlib.names;
    assert StdlibJdk8.names == all;
    assert all[1..4] == Stdlib.names;
    assert all[5..8] == Stdlib.names;
  }
}
