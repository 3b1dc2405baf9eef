/** The earlier Gradle plugin. `apply` installs a resolution rule on every
    configuration that gives a version-less `molecule-testing` request the
    plugin's own version; the compiler plugin is always the AndroidX Compose
    compiler of the bundled version, and every compilation gets the runtime
    as an `implementation` dependency. The generated build constants
    `moleculeVersion` and `composeVersion` are parameters. */
module LegacyGradlePlugin {
  import opened Kotlin
  import GradlePlugin

  const MoleculeGroup: string := "app.cash.molecule"
  const TestingArtifact: string := "molecule-testing"
  const SubstitutionReason: string := "Matches the version of the Molecule Gradle plugin and runtime"

  /** A requested module: `group:name:version`, the version `""` when the
      build script gave none. */
  datatype ModuleRequest = ModuleRequest(group: string, name: string, version: string)

  /** The `eachDependency` rule: the version it selects, if it selects one. */
  function SelectedVersion(requested: ModuleRequest, moleculeVersion: string): (v: Option<string>)
    ensures v.Some? <==> requested.group == MoleculeGroup && requested.name == TestingArtifact
                         && requested.version == ""
    ensures v.Some? ==> v.value == moleculeVersion
  {
    if requested.group == MoleculeGroup && requested.name == TestingArtifact && requested.version == ""
    then Some(moleculeVersion) else None
  }

  /** The version Gradle resolves after the rule ran. */
  function Resolved(requested: ModuleRequest, moleculeVersion: string): ModuleRequest
  {
    match SelectedVersion(requested, moleculeVersion)
    case Some(v) => requested.(version := v)
    case None => requested
  }

  /** The rule only fills in the missing version of `molecule-testing`: an
      explicit version, another artifact or another group is never
      rewritten, and group and name never change. */
  lemma OnlyMissingTestingVersionRewritten(requested: ModuleRequest, moleculeVersion: string)
    ensures Resolved(requested, moleculeVersion).group == requested.group
    ensures Resolved(requested, moleculeVersion).name == requested.name
    ensures requested.version != "" ==> Resolved(requested, moleculeVersion) == requested
    ensures requested.group != MoleculeGroup || requested.name != TestingArtifact ==>
              Resolved(requested, moleculeVersion) == requested
    ensures requested.group == MoleculeGroup && requested.name == TestingArtifact && requested.version == "" ==>
              Resolved(requested, moleculeVersion).version == moleculeVersion
  {
  }

  /** Applying the rule to its own result changes nothing more. */
  lemma ResolutionIdempotent(requested: ModuleRequest, moleculeVersion: string)
    ensures Resolved(Resolved(requested, moleculeVersion), moleculeVersion) == Resolved(requested, moleculeVersion)
  {
  }

  /** Gradle's `DependencyResolveDetails` for one request. */
  class DependencyResolveDetails {
    const requested: ModuleRequest
    var useVersion: Option<string>
    var because: Option<string>

    constructor (requested: ModuleRequest)
      ensures this.requested == requested && useVersion == None && because == None
    {
      this.requested := requested;
      useVersion := None;
      because := None;
    }

    /** The rule's body: `useVersion(moleculeVersion)` with its reason when
        the request matches; otherwise the details are left alone. */
    method EachDependency(moleculeVersion: string)
      modifies this
      ensures useVersion == if SelectedVersion(requested, moleculeVersion).Some?
                            then Some(moleculeVersion) else old(useVersion)
      ensures because == if SelectedVersion(requested, moleculeVersion).Some?
                         then Some(SubstitutionReason) else old(because)
    {
      if requested.group == MoleculeGroup && requested.name == TestingArtifact && requested.version == "" {
        useVersion := Some(moleculeVersion);
        because := Some(SubstitutionReason);
      }
    }
  }

  /** `getPluginArtifact()`: always the AndroidX Compose compiler. */
  function PluginArtifact(composeVersion: string): (a: GradlePlugin.SubpluginArtifact)
    ensures a.groupId == "androidx.compose.compiler" && a.artifactId == "compiler"
    ensures a.version == composeVersion
  {
    GradlePlugin.SubpluginArtifact("androidx.compose.compiler", "compiler", composeVersion)
  }

  /** `isApplicable`: every compilation. */
  predicate IsApplicable(compilationName: string)
  {
    true
  }

  /** A Kotlin compilation's `implementation` dependencies. */
  class KotlinCompilation {
    const name: string
    var implementation: seq<string>

    constructor (name: string)
      ensures this.name == name && implementation == []
    {
      this.name := name;
      implementation := [];
    }

    /** `applyToCompilation`: adds the runtime at the plugin's version and
        passes no options. */
    method ApplyToCompilation(moleculeVersion: string) returns (options: seq<string>)
      modifies this
      ensures implementation == old(implementation) + [GradlePlugin.RuntimeCoordinate(moleculeVersion)]
      ensures options == []
    {
      implementation := implementation + [GradlePlugin.RuntimeCoordinate(moleculeVersion)];
      options := [];
    }
  }

  /** A version-less testing artifact is pinned; one with a version keeps it. */
  method SubstitutionScenario()
  {
    var bare := new DependencyResolveDetails(ModuleRequest(MoleculeGroup, TestingArtifact, ""));
    bare.EachDependency("0.2.0");
    assert bare.useVersion == Some("0.2.0");
    var pinned := new DependencyResolveDetails(ModuleRequest(MoleculeGroup, TestingArtifact, "0.1.0"));
    pinned.EachDependency("0.2.0");
    assert pinned.useVersion == None;
    var compilation := new KotlinCompilation("main");
    assert IsApplicable(compilation.name);
    var options := compilation.ApplyToCompilation("0.2.0");
    assert compilation.implementation == [GradlePlugin.RuntimeCoordinate("0.2.0")];
  }
}
