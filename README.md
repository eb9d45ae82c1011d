# MinecraftDev core, modelled in Dafny

MinecraftDev is an IntelliJ IDEA plugin for Minecraft mod and plugin
development. This project models six pieces of it and proves properties of
each:

- **`mods.toml` completion** (`mods_toml_completion.dfy`). Key completion in a Forge
  `mods.toml` file offers the schema keys of the caret's table that are not yet
  present. Value completion for nine registered keys offers fixed string sets or
  the booleans, and only while the value slot is open.
- **The `@Inject` into constructor inspection** (`inject_into_constructor.dfy`).
  It reports an `@Inject` whose constructor target resolves to an instruction
  other than `return`. It is switched off on Fabric modules when the user allows
  that.
- **The RetroFuturaGradle MCP model handler** (`mcp_model_rfg.dfy`). During a Gradle
  import it attaches MCP settings to a module's data node and to each of its
  source-set nodes. It also derives the `generateForgeSrgMappings` task path.
- **The Mixin platform module** (`mixin_module.dfy`). It covers the Mixin library
  version, including Fabric's `+mixin.` form, and the Mixin configs of a project.
  It also covers the classes those configs list and the best writable config for
  a new mixin class.
- **The project-wizard finalizer step** (`project_setup_finalizer.dfy`). A chain of
  finalizers can block project creation with the first validation message. The
  JDK finalizer shows a "Java N is recommended" warning.
- **The debug run-configuration extension** (`module_debug_run.dfy`). It decides
  which configurations it applies to, and which module a debug run attaches to.

`wrappers.dfy` holds `Option`, `Result`, `StartsWith` and `EndsWith`.

Code that changes state is modelled as classes with `modifies` frames:
- the problems holder and the inspection's option;
- the import's data-node tree;
- the finalizer chain and the JDK finalizer's fields.

The queries that only compute are modelled as functions, with lemmas about them.

The contributor has a branch that completes a key in a table header
(`[name]` or `[[name]]`) from the schema's top-level entries. That branch,
at `ModsTomlCompletionContributor.kt:95-106`, can never run, for two reasons.
First, `addCompletions` has already returned at line 92 for every key whose
parent is not a key-value. Second, even if it were reached, line 96 compares the
key with the header's first key segment. A key is never one of its own
segments, so the branch would return at line 97. The model follows the code:
`KeyCompletions` keeps the header case and returns nothing for it, and
`TableHeaderKeyNeverCompleted` proves that header keys get no completions.

## Model

| member | source | states |
|---|---|---|
| ModsTomlCompletion.WithoutExisting | src/main/kotlin/toml/platform/forge/completion/ModsTomlCompletionContributor.kt:110-118 | An entry is kept exactly when it is in the schema list and its key is not among the existing keys. |
| ModsTomlCompletion.MakeLookup | src/main/kotlin/toml/platform/forge/completion/ModsTomlCompletionContributor.kt:128-134 | The item stands for the entry and inserts its key. It has a type text exactly when the entry declares a type, and then it is that type's name. |
| ModsTomlCompletion.Lookups | src/main/kotlin/toml/platform/forge/completion/ModsTomlCompletionContributor.kt:127-136 | One item per variant, in variant order. |
| ModsTomlCompletion.KeyCompletionsOnlyInKeyValues | src/main/kotlin/toml/platform/forge/completion/ModsTomlCompletionContributor.kt:90-92 | Completions are offered only when the caret's parent is a key segment, inside a key, inside a key-value. |
| ModsTomlCompletion.TableHeaderKeyNeverCompleted | src/main/kotlin/toml/platform/forge/completion/ModsTomlCompletionContributor.kt:92-106 | A key in a table header is never completed, whatever its segment or table kind. This is because line 92 returns first. |
| ModsTomlCompletion.KeyCandidatesAreNew | src/main/kotlin/toml/platform/forge/completion/ModsTomlCompletionContributor.kt:108-122 | No offered key is already present. At the root this means the file's top-level keys; in a table it means the table's entries. |
| ModsTomlCompletion.KeyCandidatesExact | src/main/kotlin/toml/platform/forge/completion/ModsTomlCompletionContributor.kt:88-137 | Something is offered exactly at the root or in a header-owned table that has a header key. There, an item appears if and only if its entry belongs to that scope's schema list and its key is absent. |
| ModsTomlCompletion.KeyCompletions | src/main/kotlin/toml/platform/forge/completion/ModsTomlCompletionContributor.kt:83-137 | A key-completion call. KeyCompletionsOnlyInKeyValues, TableHeaderKeyNeverCompleted, KeyCandidatesAreNew and KeyCandidatesExact state what it offers. |
| ModsTomlCompletion.ClosestKeyValueAncestor | src/main/kotlin/toml/platform/forge/completion/ModsTomlCompletionContributor.kt:168-177 | It errs with the pattern message exactly when there is a parent but no key-value above it. It yields the key-value exactly when its value is absent, or is a literal containing the caret. |
| ModsTomlCompletion.ProvideValuesGuarded | src/main/kotlin/toml/platform/forge/completion/ModsTomlCompletionContributor.kt:140-165 | A value provider errs exactly when there is no key-value. Otherwise it offers all of its values when the slot is open and none when it is not. |
| ModsTomlCompletion.BooleanProviderOffersBooleans | src/main/kotlin/toml/platform/forge/completion/ModsTomlCompletionContributor.kt:156-165 | Inside a key-value, the boolean provider offers exactly "true" and "false" when the slot is open, and nothing otherwise. |
| ModsTomlCompletion.NoValueAfterCompletedValue | src/main/kotlin/toml/platform/forge/completion/ModsTomlCompletionContributor.kt:172-176 | After a non-literal value, or outside the literal, every provider offers nothing. |
| ModsTomlCompletion.ProvideValues | src/main/kotlin/toml/platform/forge/completion/ModsTomlCompletionContributor.kt:142-165 | The two value providers. ProvideValuesGuarded, BooleanProviderOffersBooleans and NoValueAfterCompletedValue state what they offer. |
| ModsTomlCompletion.ProvidersIn | src/main/kotlin/toml/platform/forge/completion/ModsTomlCompletionContributor.kt:66-78 | A provider serves a key exactly when a value registration pairs that key with it. |
| ModsTomlCompletion.RegisteredKeysHaveOneProvider | src/main/kotlin/toml/platform/forge/completion/ModsTomlCompletionContributor.kt:53-64 | Each of the nine keys registered in `init` has exactly one value provider: the one registered with it. |
| ModsTomlCompletion.BooleanKeysOfferBooleans | src/main/kotlin/toml/platform/forge/completion/ModsTomlCompletionContributor.kt:60-63 | showAsResourcePack, logoBlur, mandatory and clientSideOnly are served by the boolean provider alone. |
| ModsTomlCompletion.ModLoaderOffersJavaFml | src/main/kotlin/toml/platform/forge/completion/ModsTomlCompletionContributor.kt:55 | modLoader has one provider, and in an open slot it offers exactly "javafml". |
| ModsTomlCompletion.Registrations | src/main/kotlin/toml/platform/forge/completion/ModsTomlCompletionContributor.kt:53-64 | The registrations of `init`. RegisteredKeysHaveOneProvider, BooleanKeysOfferBooleans and ModLoaderOffersJavaFml state which provider serves each key. |
| InjectIntoConstructor.InjectIntoConstructorInspection.constructor | src/main/kotlin/platform/mixin/inspection/injector/InjectIntoConstructorInspection.kt:34-35 | The Fabric option starts out allowed. |
| InjectIntoConstructor.InjectIntoConstructorInspection.BuildVisitor | src/main/kotlin/platform/mixin/inspection/injector/InjectIntoConstructorInspection.kt:47-54 | The empty visitor is returned exactly when the file's module has a Fabric facet and the option is set. Otherwise the visitor reports to the given holder. |
| InjectIntoConstructor.IsFabric | src/main/kotlin/platform/mixin/inspection/injector/InjectIntoConstructorInspection.kt:48-49 | Whether the file is in a Fabric module. BuildVisitor states how it gates the inspection. |
| InjectIntoConstructor.ProblemsHolder.RegisterProblem | src/main/kotlin/platform/mixin/inspection/injector/InjectIntoConstructorInspection.kt:68-71 | The problem is appended to those already registered. |
| InjectIntoConstructor.VisitMethod | src/main/kotlin/platform/mixin/inspection/injector/InjectIntoConstructorInspection.kt:55-75 | The holder's problems become the old ones plus `ProblemsFor`. That is one problem on the name reference when the annotation, its name and an injector handler exist and some constructor target has a non-return instruction; otherwise none. |
| InjectIntoConstructor.ProblemsFor | src/main/kotlin/platform/mixin/inspection/injector/InjectIntoConstructorInspection.kt:57-73 | The problems one visit registers. VisitMethod is proved to add exactly these. AtMostOneProblemPerMethod, NoProblemWithoutInject, NonConstructorTargetsIgnored and ConstructorTargetFlaggedIff state when a problem appears. |
| InjectIntoConstructor.AtMostOneProblemPerMethod | src/main/kotlin/platform/mixin/inspection/injector/InjectIntoConstructorInspection.kt:61-73 | A visit registers at most one problem, with the fixed message, on the annotation's name reference. |
| InjectIntoConstructor.NoProblemWithoutInject | src/main/kotlin/platform/mixin/inspection/injector/InjectIntoConstructorInspection.kt:57 | A method without `@Inject` gets no problem. |
| InjectIntoConstructor.NonConstructorTargetsIgnored | src/main/kotlin/platform/mixin/inspection/injector/InjectIntoConstructorInspection.kt:62-64 | Adding targets that are not constructors never changes the problems reported. |
| InjectIntoConstructor.ConstructorTargetFlaggedIff | src/main/kotlin/platform/mixin/inspection/injector/InjectIntoConstructorInspection.kt:65-73 | A constructor target is reported if and only if one of its instructions has an opcode other than RETURN (177). |
| InjectIntoConstructor.ConstructorExamples | src/main/kotlin/platform/mixin/inspection/injector/InjectIntoConstructorInspection.kt:67 | ALOAD, INVOKESPECIAL, RETURN is reported; RETURN alone is not. |
| McpModelRfg.FindWithSuffix | src/main/kotlin/platform/mcp/gradle/datahandler/McpModelRFGHandler.kt:45 | It returns the first file ending in the suffix, and none exactly when no file does. |
| McpModelRfg.ProjectPath | src/main/kotlin/platform/mcp/gradle/datahandler/McpModelRFGHandler.kt:51-56 | The path starts and ends with ':'. A root id gives ':'. An id ending in ':' is kept as it is, and any other id gets ':' appended. |
| McpModelRfg.SrgTaskShape | src/main/kotlin/platform/mcp/gradle/datahandler/McpModelRFGHandler.kt:51-58 | The task starts with ':' and ends with ':generateForgeSrgMappings'. A root id gives the root task. A project path is kept as a prefix, and ':' is added only when the path lacks it. |
| McpModelRfg.SrgTaskFor | src/main/kotlin/platform/mcp/gradle/datahandler/McpModelRFGHandler.kt:51-58 | The task of a module id. SrgTaskShape states its form, and SrgTask is proved to compute it step by step. |
| McpModelRfg.SrgTask | src/main/kotlin/platform/mcp/gradle/datahandler/McpModelRFGHandler.kt:51-58 | The step-by-step computation of `build` yields `SrgTaskFor(id)`. |
| McpModelRfg.RootModuleTask | src/main/kotlin/platform/mcp/gradle/datahandler/McpModelRFGHandler.kt:52-58 | A root module gets ':' followed by the task name. |
| McpModelRfg.SubProjectTask | src/main/kotlin/platform/mcp/gradle/datahandler/McpModelRFGHandler.kt:54-58 | ":forge" gets ":forge:" followed by the task name. |
| McpModelRfg.SubProjectTrailingColonTask | src/main/kotlin/platform/mcp/gradle/datahandler/McpModelRFGHandler.kt:54-58 | ":forge:" keeps its ':' and gets only the task name. |
| McpModelRfg.SrgFileExample | src/main/kotlin/platform/mcp/gradle/datahandler/McpModelRFGHandler.kt:45 | Of two `mcp-srg.srg` files, the first is chosen, and a `.tsrg` file is skipped. |
| McpModelRfg.DataNode.CreateChild | src/main/kotlin/platform/mcp/gradle/datahandler/McpModelRFGHandler.kt:67-80 | A fresh, childless node holding the data is appended to the children. |
| McpModelRfg.Build | src/main/kotlin/platform/mcp/gradle/datahandler/McpModelRFGHandler.kt:35-88 | Without an RFG model nothing changes. With one, the module node gains one child holding its settings without a platform version. Each old source-set child gains one child holding the full settings, the same task and access transformers, and itself as module. Every other child is unchanged. |
| McpModelRfg.ModelState | src/main/kotlin/platform/mcp/gradle/datahandler/McpModelRFGHandler.kt:42-48 | The settings given to source sets. Build states where they are attached. |
| McpModelRfg.NodeState | src/main/kotlin/platform/mcp/gradle/datahandler/McpModelRFGHandler.kt:71-76 | The module node's settings, without a platform version. Build states where they are attached. |
| MixinModule.SubstringAfter | src/main/kotlin/platform/mixin/MixinModule.kt:47 | Without the delimiter the whole string is returned. Otherwise the result is what follows its first occurrence. |
| MixinModule.MixinVersion | src/main/kotlin/platform/mixin/MixinModule.kt:43-49 | There is a Mixin version exactly when there is a Mixin library version. |
| MixinModule.FabricMixinVersion | src/main/kotlin/platform/mixin/MixinModule.kt:46-48 | "0.10.4+mixin.0.8.4" parses as "0.8.4". |
| MixinModule.PlainMixinVersion | src/main/kotlin/platform/mixin/MixinModule.kt:46-48 | A version without "+mixin." is parsed whole. |
| MixinModule.MixinConfigs | src/main/kotlin/platform/mixin/MixinModule.kt:58-69 | A config is returned exactly when a JSON or JSON5 file yields it. |
| MixinModule.FilterNotNullAppend | src/main/kotlin/platform/mixin/MixinModule.kt:62-66 | Dropping absent files commutes with concatenating the file lists. |
| MixinModule.JsonConfigsFirst | src/main/kotlin/platform/mixin/MixinModule.kt:56-66 | The JSON configs come first, then the JSON5 configs, each in index order. |
| MixinModule.AllEntries | src/main/kotlin/platform/mixin/MixinModule.kt:76 | An entry is kept exactly when it is a mixins, client or server entry of some config. |
| MixinModule.FilterNotNull | src/main/kotlin/platform/mixin/MixinModule.kt:77 | A value is kept exactly when it is present in the input. |
| MixinModule.ReplaceDollar | src/main/kotlin/platform/mixin/MixinModule.kt:78 | The same length, with every '$' turned into '.' and every other character kept. |
| MixinModule.Distinct | src/main/kotlin/platform/mixin/MixinModule.kt:79 | No duplicates, the same elements, in order of first occurrence. |
| MixinModule.MixinClassNamesSpec | src/main/kotlin/platform/mixin/MixinModule.kt:75-79 | The names looked up are exactly the non-null entries of all configs with '$' replaced. Each appears once, and none contains '$'. |
| MixinModule.MixinClassNames | src/main/kotlin/platform/mixin/MixinModule.kt:75-79 | The names looked up. MixinClassNamesSpec states them. |
| MixinModule.AllMixinClasses | src/main/kotlin/platform/mixin/MixinModule.kt:71-82 | A class is returned exactly when `findClasses` finds it for one of the normalised names. |
| MixinModule.FilterQualifying | src/main/kotlin/platform/mixin/MixinModule.kt:90 | Every kept config is writable, and its package text followed by '.' prefixes the class name. |
| MixinModule.FilterQualifyingMembers | src/main/kotlin/platform/mixin/MixinModule.kt:90 | A config is kept exactly when it is in the input, writable, and its package text followed by '.' prefixes the class name. |
| MixinModule.MaxByPkgLength | src/main/kotlin/platform/mixin/MixinModule.kt:91 | None exactly for an empty list. Otherwise it returns the first config of greatest package length. |
| MixinModule.BestWritableConfigExists | src/main/kotlin/platform/mixin/MixinModule.kt:84-92 | There is a best config exactly when some config qualifies. |
| MixinModule.BestWritableConfigLongest | src/main/kotlin/platform/mixin/MixinModule.kt:84-92 | The best config qualifies, and no qualifying config has a longer package. |
| MixinModule.BestWritableConfigFirst | src/main/kotlin/platform/mixin/MixinModule.kt:84-92 | Every qualifying config before the best one has a strictly shorter package, as `maxByOrNull` keeps the first maximum. |
| MixinModule.BestWritableConfigSpec | src/main/kotlin/platform/mixin/MixinModule.kt:84-92 | There is a result exactly when some config qualifies. The result qualifies, no qualifying config has a longer package, and every qualifying config before it has a strictly shorter one. |
| MixinModule.BestWritableConfig | src/main/kotlin/platform/mixin/MixinModule.kt:84-92 | The best writable config. BestWritableConfigSpec states the choice. |
| ProjectSetupFinalizer.FirstNotNull | src/main/kotlin/creator/ProjectSetupFinalizerWizardStep.kt:62 | The first non-null value, and null exactly when every value is null. |
| ProjectSetupFinalizer.Validations | src/main/kotlin/creator/ProjectSetupFinalizerWizardStep.kt:62 | One validation result per finalizer, in order. |
| ProjectSetupFinalizer.StepSequence | src/main/kotlin/creator/ProjectSetupFinalizerWizardStep.kt:46-56 | There is a step sequence exactly when the wizard shows the validation row. That is, when there are finalizers, and it runs every finalizer once, in order. |
| ProjectSetupFinalizer.ProjectSetupFinalizerWizardStep.Finalizers | src/main/kotlin/creator/ProjectSetupFinalizerWizardStep.kt:33-45 | One fresh finalizer per factory, in factory order. The first is created under the step, and each later one under its predecessor. The wizard then has a step sequence and a validation row exactly when there are factories. |
| ProjectSetupFinalizer.ValidationFirstRejection | src/main/kotlin/creator/ProjectSetupFinalizerWizardStep.kt:56-66 | Validation accepts exactly when no finalizer rejects. Otherwise it reports the message of the first finalizer that rejects. |
| ProjectSetupFinalizer.ValidationMessage | src/main/kotlin/creator/ProjectSetupFinalizerWizardStep.kt:62 | The message of the validation row. ValidationFirstRejection states which one it is. |
| ProjectSetupFinalizer.Finalizer.Validate | src/main/kotlin/creator/ProjectSetupFinalizerWizardStep.kt:91 | A finalizer's validation. JdkFinalizersAccept states that the default accepts. |
| ProjectSetupFinalizer.JdkFinalizersAccept | src/main/kotlin/creator/ProjectSetupFinalizerWizardStep.kt:91 | JDK finalizers keep the default `validate` and never block project creation. |
| ProjectSetupFinalizer.ExpectedLabelSpec | src/main/kotlin/creator/ProjectSetupFinalizerWizardStep.kt:128-134 | The warning is absent exactly when the versions match. It starts with "Java" and the preferred version's description, and ends with "for" and the reason. |
| ProjectSetupFinalizer.ExpectedLabel | src/main/kotlin/creator/ProjectSetupFinalizerWizardStep.kt:128-133 | The text the warning should show. ExpectedLabelSpec states its form, and UpdatePreferredJdkLabel is proved to show it. |
| ProjectSetupFinalizer.JdkProjectSetupFinalizer.constructor | src/main/kotlin/creator/ProjectSetupFinalizerWizardStep.kt:101-107 | No SDK and no placeholder. The preferred JDK is 17 with the reason "these settings". |
| ProjectSetupFinalizer.JdkProjectSetupFinalizer.UpdatePreferredJdkLabel | src/main/kotlin/creator/ProjectSetupFinalizerWizardStep.kt:125-135 | The label is untouched without an SDK, a known version or a placeholder. Otherwise it is cleared for the preferred version and shows the recommendation for any other. |
| ProjectSetupFinalizer.JdkProjectSetupFinalizer.SetPreferredJdk | src/main/kotlin/creator/ProjectSetupFinalizerWizardStep.kt:110-115 | It records the version and reason, keeps the SDK and placeholder, and leaves the label consistent with the new preference. |
| ProjectSetupFinalizer.JdkProjectSetupFinalizer.SelectSdk | src/main/kotlin/creator/ProjectSetupFinalizerWizardStep.kt:117-123 | A new SDK selection keeps the preference, and the property listener leaves the label consistent. |
| ProjectSetupFinalizer.JdkProjectSetupFinalizer.SetupUI | src/main/kotlin/creator/ProjectSetupFinalizerWizardStep.kt:137-146 | It creates the placeholder (empty when the version is unknown) and leaves the label consistent. |
| ModuleDebugRun.FirstMcpModule | src/main/kotlin/util/ModuleDebugRunConfigurationExtension.kt:73-75 | The first module with an MCP facet, and none exactly when no module has one. |
| ModuleDebugRun.AttachOnlyWhenDebuggingApplicable | src/main/kotlin/util/ModuleDebugRunConfigurationExtension.kt:41-79 | A run attaches only when it is a debug run of a module-based or Gradle configuration. |
| ModuleDebugRun.IsApplicableFor | src/main/kotlin/util/ModuleDebugRunConfigurationExtension.kt:41-43 | Which configurations the extension applies to. AttachOnlyWhenDebuggingApplicable states that only these attach. |
| ModuleDebugRun.AttachTarget | src/main/kotlin/util/ModuleDebugRunConfigurationExtension.kt:54-79 | The module a run attaches to. AttachOnlyWhenDebuggingApplicable, ModuleBasedAttachesToConfiguredModule and GradleAttachesToFirstMcpModule state which one. |
| ModuleDebugRun.ModuleBasedAttachesToConfiguredModule | src/main/kotlin/util/ModuleDebugRunConfigurationExtension.kt:65-68 | A debugged module-based configuration attaches to its configured module, and not at all when that is unset. |
| ModuleDebugRun.GradleAttachesToFirstMcpModule | src/main/kotlin/util/ModuleDebugRunConfigurationExtension.kt:69-77 | A debugged Gradle configuration attaches to the first project module with an MCP facet, and not at all when there is none. |

## Left out

- Lines 99-105 of `ModsTomlCompletionContributor.kt` are not modelled. They are the header branch after its first-segment test, which the code never reaches, and they would use `topLevelEntries(isArray)`.
- The contents of the `mods.toml` schema and the `ForgeConstants` value sets are parameters. ModsTomlSchema and ForgeConstants are not part of this model.
- The PSI patterns that select where each provider runs are not modelled.
  - `inModsTomlKey` and `inModsTomlValueWithKey` are left out. The value context is given as the enclosing key-value.
- Lookup presentation is not modelled: insertion handlers and `LookupElementBuilder` beyond the lookup string and type text.
- The order of the known-values set is not modelled. It is a Kotlin `Set`, and the model offers its values as a list.
- Target and instruction resolution are inputs: each target is given with its resolved instructions.
  - `MixinAnnotationHandler.forMixinAnnotation` is also an input, given as whether an injector handler is registered.
- VisitMethod: the `super.visitMethod` call is not modelled. It belongs to the host's visitor.
- The inspection's options panel and checkbox are UI, and are not modelled.
- The static description of the inspection is not modelled.
- How the import obtains the RFG project model is not modelled. `getExtraProject` is given as an optional input.
- Build: requires the node's children to be distinct and not the node itself, as in any tree.
- NodeState: the settings of the module node leave out the fifth argument of `McpModuleSettings.State`, which the model takes as `None`. That class is not part of this model.
- File indexing and PSI parsing of Mixin configs are inputs. `FileTypeIndex` and `PsiManager`: each file is given as its config, or `None` when it is not a JSON object.
- Parsing a `MixinConfig` from JSON is not modelled.
- `MinecraftFacetDetector.getLibraryVersions` is not modelled.
- MixinVersion: `SemanticVersion.parse` is a parameter, so the result is stated only up to that function.
- AllMixinClasses: `findClasses` is a parameter. The contract states membership both ways, but not the order or repetition of the classes, which the body fixes name by name.
- The lazy initialisation of `finalizers` and `step` is not modelled. Each is computed once from its inputs.
- The validation requestor and cell layout of the wizard step are UI.
- `setupProject` of the wizard step and the finalizers is not modelled. It delegates to steps outside this model.
- A custom finalizer's `validate` result is fixed by its factory.
  - The chain's JDK finalizer and the `JdkProjectSetupFinalizer` class are modelled separately.
- The JDK finalizer's combo box, label colour and `storeToData` are not modelled.
  - Of `setupUI`, only the placeholder and the label refresh are modelled.
- `JavaSdk.getVersion` is given as the SDK's optional version.
- `sdkComboBox?.setPreferredJdk` is not modelled. It only updates the combo box.
- The inner `attachToProcess(handler, module)` is abstract. The model gives the module it is called with.
- `getEditorTitle` and `createEditor` return null and are not modelled.
- `MinecraftFacet.getInstance` is not modelled. The facet's platform types are given with each module.
- `updateJavaParameters` (`ModuleDebugRunConfigurationExtension.kt:45-50`) and `readExternal` (line 81) are empty overrides: they change nothing, and nothing is modelled for them.
