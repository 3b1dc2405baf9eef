/** The current Gradle plugin: the `molecule.kotlinCompilerPlugin` property
    names the Compose compiler (a bare version, or a `group:artifact:version`
    triple), and `apply` wires the runtime dependency into whichever Kotlin
    plugin the project uses. The generated build constants `moleculeVersion`
    and `composeCompilerVersion` are parameters; Gradle's project model is
    reduced to the extensions, plugins and dependency lists the plugin looks
    at or changes. */
module GradlePlugin {
  import opened Kotlin

  const ExtensionName: string := "molecule"
  const PropertyName: string := "kotlinCompilerPlugin"
  const InternalProperty: string := "app.cash.molecule.internal"
  const RuntimeProjectPath: string := ":molecule-runtime"
  const DefaultCompilerGroup: string := "org.jetbrains.compose.compiler"
  const DefaultCompilerArtifact: string := "compiler"
  const CompilerPluginId: string := "app.cash.molecule"

  /** `MOLECULE_RUNTIME`, the published runtime coordinate. */
  function RuntimeCoordinate(moleculeVersion: string): string
  {
    "app.cash.molecule:molecule-runtime:" + moleculeVersion
  }

  /** `SubpluginArtifact(groupId, artifactId, version)`. */
  datatype SubpluginArtifact = SubpluginArtifact(groupId: string, artifactId: string, version: string)

  /** The index of the first `:` in `s`, or `|s|` if there is none. */
  function ColonIndex(s: string): (i: nat)
    ensures i <= |s|
    ensures i < |s| ==> s[i] == ':'
    ensures forall k :: 0 <= k < i ==> s[k] != ':'
  {
    if s == [] then 0
    else if s[0] == ':' then 0
    else 1 + ColonIndex(s[1..])
  }

  /** Kotlin's `s.split(":")`: the pieces between the colons, empty ones
      included, so a string with `n` colons has `n + 1` parts. */
  function Split(s: string): (parts: seq<string>)
    ensures |parts| >= 1
    decreases |s|
  {
    var i := ColonIndex(s);
    if i == |s| then [s] else [s[..i]] + Split(s[i + 1..])
  }

  /** `parts.joinToString(":")`. */
  function Join(parts: seq<string>): string
    requires |parts| >= 1
    decreases |parts|
  {
    if |parts| == 1 then parts[0] else parts[0] + ":" + Join(parts[1..])
  }

  predicate NoColon(s: string)
  {
    forall k :: 0 <= k < |s| ==> s[k] != ':'
  }

  /** Splitting loses nothing: joining the parts with `:` gives back the
      string, and no part contains a colon. */
  lemma {:induction false} JoinSplit(s: string)
    ensures Join(Split(s)) == s
    ensures forall j :: 0 <= j < |Split(s)| ==> NoColon(Split(s)[j])
  {
    JoinOfSplit(s);
    SplitPartsNoColon(s);
  }

  lemma {:induction false} JoinOfSplit(s: string)
    ensures Join(Split(s)) == s
    decreases |s|
  {
    var i := ColonIndex(s);
    if i < |s| {
      JoinOfSplit(s[i + 1..]);
      JoinSplitStep(s, i);
      Reassemble(s, i);
    }
  }

  /** Joining the parts of a string with a colon at `i`, the first one. */
  lemma JoinSplitStep(s: string, i: nat)
    requires i == ColonIndex(s) < |s|
    ensures Join(Split(s)) == s[..i] + ":" + Join(Split(s[i + 1..]))
  {
    SplitAt(s, i);
    JoinCons(s[..i], Split(s[i + 1..]));
  }

  lemma SplitAt(s: string, i: nat)
    requires i == ColonIndex(s) < |s|
    ensures Split(s) == [s[..i]] + Split(s[i + 1..])
  {
  }

  lemma JoinCons(head: string, rest: seq<string>)
    requires |rest| >= 1
    ensures Join([head] + rest) == head + ":" + Join(rest)
  {
    assert ([head] + rest)[1..] == rest;
  }

  lemma Reassemble(s: string, i: nat)
    requires i < |s| && s[i] == ':'
    ensures s == s[..i] + ":" + s[i + 1..]
  {
  }

  lemma {:induction false} SplitPartsNoColon(s: string)
    ensures forall j :: 0 <= j < |Split(s)| ==> NoColon(Split(s)[j])
    decreases |s|
  {
    var i := ColonIndex(s);
    if i < |s| {
      var tail := s[i + 1..];
      SplitPartsNoColon(tail);
      var parts := [s[..i]] + Split(tail);
      assert Split(s) == parts;
      forall j | 0 <= j < |parts|
        ensures NoColon(parts[j])
      {
        if j > 0 {
          assert parts[j] == Split(tail)[j - 1];
        }
      }
    }
  }

  /** The other direction: colon-free parts joined with `:` split back into
      the same parts. */
  lemma {:induction false} SplitJoin(parts: seq<string>)
    requires |parts| >= 1 && forall j :: 0 <= j < |parts| ==> NoColon(parts[j])
    ensures Split(Join(parts)) == parts
    decreases |parts|
  {
    if |parts| == 1 {
      ColonFree(parts[0]);
    } else {
      var s := Join(parts);
      var rest := Join(parts[1..]);
      assert s == parts[0] + ":" + rest;
      ColonFreePrefix(parts[0], rest);
      assert s[..|parts[0]|] == parts[0];
      assert s[|parts[0]| + 1..] == rest;
      SplitJoin(parts[1..]);
    }
  }

  lemma ColonFree(s: string)
    requires NoColon(s)
    ensures ColonIndex(s) == |s|
  {
  }

  lemma ColonFreePrefix(a: string, b: string)
    requires NoColon(a)
    ensures ColonIndex(a + ":" + b) == |a|
  {
    var s := a + ":" + b;
    assert forall k :: 0 <= k < |a| ==> s[k] == a[k];
    assert s[|a|] == ':';
  }

  /** The number of colons in `s`. */
  function Colons(s: string): nat
  {
    if s == [] then 0 else (if s[0] == ':' then 1 else 0) + Colons(s[1..])
  }

  lemma {:induction false} ColonsAppend(a: string, b: string)
    ensures Colons(a + b) == Colons(a) + Colons(b)
    decreases |a|
  {
    if a == [] {
      assert a + b == b;
    } else {
      assert (a + b)[0] == a[0] && (a + b)[1..] == a[1..] + b;
      ColonsAppend(a[1..], b);
    }
  }

  lemma {:induction false} NoColonCount(s: string)
    requires NoColon(s)
    ensures Colons(s) == 0
    decreases |s|
  {
    if s != [] {
      NoColonCount(s[1..]);
    }
  }

  /** A string with `n` colons splits into `n + 1` parts. */
  lemma {:induction false} SplitCount(s: string)
    ensures |Split(s)| == Colons(s) + 1
    decreases |s|
  {
    var i := ColonIndex(s);
    if i == |s| {
      NoColonCount(s);
    } else {
      SplitCount(s[i + 1..]);
      assert s == s[..i] + ([':'] + s[i + 1..]);
      ColonsAppend(s[..i], [':'] + s[i + 1..]);
      ColonsAppend([':'], s[i + 1..]);
      NoColonCount(s[..i]);
    }
  }

  /** The message of `error(...)` for a property with an unsupported number
      of parts, after `trimMargin()`. */
  function IllegalFormatMessage(plugin: string): string
  {
    "Illegal format of '" + ExtensionName + "." + PropertyName + "' property.\n"
    + "Expected format: either '<VERSION>' or '<GROUP_ID>:<ARTIFACT_ID>:<VERSION>'\n"
    + "Actual value: '" + plugin + "'"
  }

  /** `getPluginArtifact` returns an artifact or fails with `error(...)`. */
  datatype ArtifactResult = Artifact(artifact: SubpluginArtifact) | IllegalFormat(message: string)

  /** `getPluginArtifact()` for the property value `plugin`. */
  function PluginArtifact(plugin: string): (r: ArtifactResult)
    ensures r.Artifact? <==> |Split(plugin)| == 1 || |Split(plugin)| == 3
    ensures |Split(plugin)| == 1 ==>
      r == Artifact(SubpluginArtifact(DefaultCompilerGroup, DefaultCompilerArtifact, plugin))
    ensures |Split(plugin)| == 3 ==>
      r == Artifact(SubpluginArtifact(Split(plugin)[0], Split(plugin)[1], Split(plugin)[2]))
    ensures r.IllegalFormat? ==> r.message == IllegalFormatMessage(plugin)
  {
    var parts := Split(plugin);
    if |parts| == 1 then
      assert parts == [plugin];
      Artifact(SubpluginArtifact(DefaultCompilerGroup, DefaultCompilerArtifact, parts[0]))
    else if |parts| == 3 then Artifact(SubpluginArtifact(parts[0], parts[1], parts[2]))
    else IllegalFormat(IllegalFormatMessage(plugin))
  }

  /** The number of colons decides: none gives the JetBrains compiler of
      that version, exactly two give a coordinate, any other number is
      refused. */
  lemma ArtifactByColons(plugin: string)
    ensures PluginArtifact(plugin).Artifact? <==> Colons(plugin) == 0 || Colons(plugin) == 2
    ensures Colons(plugin) == 0 ==>
      PluginArtifact(plugin) == Artifact(SubpluginArtifact(DefaultCompilerGroup, DefaultCompilerArtifact, plugin))
  {
    SplitCount(plugin);
  }

  /** A three-part value is taken apart in order: joining the artifact's
      fields with `:` gives the value back. */
  lemma TripleRoundTrip(plugin: string)
    requires |Split(plugin)| == 3
    ensures PluginArtifact(plugin).Artifact?
    ensures var a := PluginArtifact(plugin).artifact;
      a.groupId + ":" + a.artifactId + ":" + a.version == plugin
  {
    JoinSplit(plugin);
    JoinThree(Split(plugin));
  }

  lemma JoinThree(parts: seq<string>)
    requires |parts| == 3
    ensures Join(parts) == parts[0] + ":" + parts[1] + ":" + parts[2]
  {
    assert Join(parts[2..]) == parts[2];
    assert Join(parts[1..]) == parts[1] + ":" + parts[2];
  }

  /** A coordinate whose fields hold no colon is accepted and read back as
      the same artifact. */
  lemma ArtifactFromCoordinate(a: SubpluginArtifact)
    requires NoColon(a.groupId) && NoColon(a.artifactId) && NoColon(a.version)
    ensures PluginArtifact(a.groupId + ":" + a.artifactId + ":" + a.version) == Artifact(a)
  {
    var parts := [a.groupId, a.artifactId, a.version];
    assert Join(parts[2..]) == a.version;
    assert Join(parts[1..]) == a.artifactId + ":" + a.version;
    assert Join(parts) == a.groupId + ":" + a.artifactId + ":" + a.version;
    SplitJoin(parts);
  }

  /** `Project.isInternal()`: the string form of the project property is
      `"true"`. A missing property is `null`, whose string form is
      `"null"`; `properties` holds the string forms of the values present. */
  function IsInternal(properties: map<string, string>): (internal: bool)
    ensures internal <==> InternalProperty in properties && properties[InternalProperty] == "true"
  {
    var value := if InternalProperty in properties then properties[InternalProperty] else "null";
    value == "true"
  }

  /** The Kotlin plugins whose extensions `apply` looks up. */
  datatype KotlinExtensions = KotlinExtensions(android: bool, jvm: bool, multiplatform: bool)

  /** Where the runtime dependency goes. */
  datatype DependencyTarget = ApiConfiguration | CommonMainApi | NoSupportedPlugin

  /** A JVM or Android project gets an `api` dependency; otherwise a
      multiplatform project gets one in `commonMain`; otherwise there is no
      supported Kotlin plugin. */
  function TargetFor(ext: KotlinExtensions): (t: DependencyTarget)
    ensures t == ApiConfiguration <==> ext.jvm || ext.android
    ensures t == CommonMainApi <==> !ext.jvm && !ext.android && ext.multiplatform
    ensures t == NoSupportedPlugin <==> !ext.jvm && !ext.android && !ext.multiplatform
  {
    if ext.jvm || ext.android then ApiConfiguration
    else if ext.multiplatform then CommonMainApi
    else NoSupportedPlugin
  }

  /** A dependency notation: the `:molecule-runtime` project or a published
      coordinate. */
  datatype Dependency = ProjectDependency(path: string) | External(coordinate: string)

  /** Inside the Molecule build the runtime project itself; elsewhere the
      published coordinate. */
  function RuntimeDependency(internal: bool, moleculeVersion: string): (d: Dependency)
    ensures d.ProjectDependency? <==> internal
    ensures internal ==> d.path == RuntimeProjectPath
    ensures !internal ==> d.coordinate == RuntimeCoordinate(moleculeVersion)
  {
    if internal then ProjectDependency(RuntimeProjectPath) else External(RuntimeCoordinate(moleculeVersion))
  }

  const NoSupportedPluginMessage: string := "No supported Kotlin plugin detected!"
  /** The first line of the message refusing the JetBrains Compose plugin. */
  const ComposeConflictMessage: string :=
    "The Molecule Gradle plugin cannot be applied to the same project as the JetBrains Compose Gradle plugin."

  /** The project state `apply` reads and changes. */
  class Project {
    const path: string
    const properties: map<string, string>
    const extensions: KotlinExtensions
    const hasJetBrainsCompose: bool
    /** The `molecule` extension's `kotlinCompilerPlugin` value, once created. */
    var compilerPlugin: Option<string>
    var apiDependencies: seq<Dependency>
    var commonMainApiDependencies: seq<Dependency>

    constructor (path: string, properties: map<string, string>, extensions: KotlinExtensions, hasJetBrainsCompose: bool)
      ensures this.path == path && this.properties == properties
      ensures this.extensions == extensions && this.hasJetBrainsCompose == hasJetBrainsCompose
      ensures compilerPlugin == None && apiDependencies == [] && commonMainApiDependencies == []
    {
      this.path := path;
      this.properties := properties;
      this.extensions := extensions;
      this.hasJetBrainsCompose := hasJetBrainsCompose;
      compilerPlugin := None;
      apiDependencies := [];
      commonMainApiDependencies := [];
    }

    /** `apply(target)` followed by the `afterEvaluate` callback. The
        extension is always created with the compiler version as its
        convention. The internal runtime project stops there. Otherwise a
        JetBrains Compose plugin is refused, and the runtime dependency is
        added where `TargetFor` says, or the build fails. */
    method Apply(composeCompilerVersion: string, moleculeVersion: string) returns (r: Result<()>)
      modifies this
      ensures compilerPlugin == Some(composeCompilerVersion)
      ensures IsInternal(properties) && path == RuntimeProjectPath ==>
        r.Ok? && apiDependencies == old(apiDependencies)
        && commonMainApiDependencies == old(commonMainApiDependencies)
      ensures !(IsInternal(properties) && path == RuntimeProjectPath) && hasJetBrainsCompose ==>
        r.Raised? && r.error.simpleName == "IllegalStateException"
        && r.error.message == ComposeConflictMessage
        && apiDependencies == old(apiDependencies)
        && commonMainApiDependencies == old(commonMainApiDependencies)
      ensures !(IsInternal(properties) && path == RuntimeProjectPath) && !hasJetBrainsCompose ==>
        var dep := RuntimeDependency(IsInternal(properties), moleculeVersion);
        match TargetFor(extensions)
        case ApiConfiguration =>
          r.Ok? && apiDependencies == old(apiDependencies) + [dep]
          && commonMainApiDependencies == old(commonMainApiDependencies)
        case CommonMainApi =>
          r.Ok? && apiDependencies == old(apiDependencies)
          && commonMainApiDependencies == old(commonMainApiDependencies) + [dep]
        case NoSupportedPlugin =>
          r.Raised? && r.error.simpleName == "IllegalStateException"
          && r.error.message == NoSupportedPluginMessage
          && apiDependencies == old(apiDependencies)
          && commonMainApiDependencies == old(commonMainApiDependencies)
    {
      compilerPlugin := Some(composeCompilerVersion);
      if IsInternal(properties) && path == RuntimeProjectPath {
        return Ok(());
      }
      if hasJetBrainsCompose {
        var e := new Throwable("IllegalStateException", ComposeConflictMessage, null);
        return Raised(e);
      }
      var dependency := RuntimeDependency(IsInternal(properties), moleculeVersion);
      match TargetFor(extensions) {
        case ApiConfiguration =>
          apiDependencies := apiDependencies + [dependency];
          r := Ok(());
        case CommonMainApi =>
          commonMainApiDependencies := commonMainApiDependencies + [dependency];
          r := Ok(());
        case NoSupportedPlugin =>
          var e := new Throwable("IllegalStateException", NoSupportedPluginMessage, null);
          r := Raised(e);
      }
    }

    /** `getPluginArtifact()`, reading the extension `apply` created. */
    function GetPluginArtifact(): (r: ArtifactResult)
      reads this
      requires compilerPlugin.Some?
      ensures r == PluginArtifact(compilerPlugin.value)
    {
      PluginArtifact(compilerPlugin.value)
    }
  }

  /** With the default property the JetBrains compiler of the bundled
      version is used. */
  method DefaultArtifactScenario()
  {
    var p := new Project(":app", map[], KotlinExtensions(false, true, false), false);
    var r := p.Apply("1.4.8", "0.9.0");
    assert r.Ok? && p.apiDependencies == [External(RuntimeCoordinate("0.9.0"))];
    assert NoColon("1.4.8");
    NoColonCount("1.4.8");
    ArtifactByColons("1.4.8");
    var a := p.GetPluginArtifact();
    assert a.Artifact? && a.artifact.groupId == DefaultCompilerGroup;
  }
}
