/**
 * The run-configuration extension that attaches to a debugged Minecraft
 * process: which configurations it applies to, and which module, if any, a
 * run attaches to.
 *
 * The configuration, the runner settings and the project's modules with
 * their Minecraft facets are inputs; the attach itself is the subclass's
 * business and is given here as the module it is called with.
 */
module ModuleDebugRun {
  import opened Wrappers

  /** A platform a Minecraft facet can be of. */
  datatype PlatformType = Mcp | Fabric | Forge | Mixin | OtherPlatform(name: string)

  /** A project module and the platform types of its Minecraft facet, if it has one. */
  datatype Module = Module(name: string, facetTypes: Option<set<PlatformType>>)

  /** A run configuration: module-based (with its configured module, maybe unset), Gradle, or another kind. */
  datatype RunConfiguration =
    | ModuleBasedConfiguration(configuredModule: Option<Module>)
    | GradleRunConfiguration(projectModules: seq<Module>)
    | OtherConfiguration(kind: string)

  /** The runner settings of a launch: a debug run, another runner's, or none. */
  datatype RunnerSettings = DebuggingRunnerData | OtherRunnerSettings | NoRunnerSettings

  /** The extension applies to module-based and Gradle run configurations. */
  predicate IsApplicableFor(configuration: RunConfiguration)
  {
    configuration.ModuleBasedConfiguration? || configuration.GradleRunConfiguration?
  }

  /** The module has a Minecraft facet, and that facet is of the MCP platform type. */
  predicate HasMcpFacet(m: Module)
  {
    m.facetTypes.Some? && Mcp in m.facetTypes.value
  }

  /** The first module with an MCP facet, or `None` when no module has one. */
  function FirstMcpModule(modules: seq<Module>): (r: Option<Module>)
    ensures r.None? <==> forall i :: 0 <= i < |modules| ==> !HasMcpFacet(modules[i])
    ensures r.Some? ==> exists i :: 0 <= i < |modules| && modules[i] == r.value && HasMcpFacet(r.value) &&
                                    forall j :: 0 <= j < i ==> !HasMcpFacet(modules[j])
  {
    if modules == [] then None
    else if HasMcpFacet(modules[0]) then Some(modules[0])
    else
      var r := FirstMcpModule(modules[1..]);
      assert forall i :: 1 <= i < |modules| ==> modules[i] == modules[1..][i - 1];
      r
  }

  /**
   * `attachToProcess(configuration, handler, runnerSettings)`: the module the
   * inner `attachToProcess(handler, module)` is called with, or `None` when it
   * is not called; it is called at most once.
   */
  function AttachTarget(configuration: RunConfiguration, runnerSettings: RunnerSettings): Option<Module>
  {
    if !runnerSettings.DebuggingRunnerData? then None
    else
      match configuration
      case ModuleBasedConfiguration(configuredModule) => configuredModule
      case GradleRunConfiguration(projectModules) => FirstMcpModule(projectModules)
      case OtherConfiguration(_) => None
  }

  /** Only debug runs of applicable configurations attach. */
  lemma AttachOnlyWhenDebuggingApplicable(configuration: RunConfiguration, runnerSettings: RunnerSettings)
    ensures AttachTarget(configuration, runnerSettings).Some? ==>
      runnerSettings == DebuggingRunnerData && IsApplicableFor(configuration)
  {
  }

  /** A debugged module-based configuration attaches to its configured module, and not at all when it has none. */
  lemma ModuleBasedAttachesToConfiguredModule(configuredModule: Option<Module>)
    ensures AttachTarget(ModuleBasedConfiguration(configuredModule), DebuggingRunnerData) == configuredModule
  {
  }

  /**
   * A debugged Gradle configuration attaches to the first project module with
   * an MCP facet, and not at all when there is none.
   */
  lemma GradleAttachesToFirstMcpModule(modules: seq<Module>)
    ensures AttachTarget(GradleRunConfiguration(modules), DebuggingRunnerData).None? <==>
      forall i :: 0 <= i < |modules| ==> !HasMcpFacet(modules[i])
    ensures AttachTarget(GradleRunConfiguration(modules), DebuggingRunnerData).Some? ==>
      var m := AttachTarget(GradleRunConfiguration(modules), DebuggingRunnerData).value;
      HasMcpFacet(m) && exists i :: (0 <= i < |modules| && modules[i] == m &&
        forall j :: 0 <= j < i ==> !HasMcpFacet(modules[j]))
  {
  }
}
