// Configuration merging (crates/arky-config/src/merge.rs, layered.rs) and the precedence of
// file, environment and builder that it gives (loader.rs).

/** The partial configurations and how two of them merge, field by field. */
module ConfigMerge {
  import opened Prelude
  import opened JsonValues

  /** `overlay.field.or(base.field)` */
  function Or<T>(base: Option<T>, overlay: Option<T>): Option<T> {
    if overlay.Some? then overlay else base
  }

  /** `merge_optional`: merged when both are there. */
  function MergeOptional<T>(base: Option<T>, overlay: Option<T>, merge: (T, T) -> T): Option<T> {
    match (base, overlay)
    case (Some(b), Some(o)) => Some(merge(b, o))
    case (Some(b), None) => Some(b)
    case (None, o) => o
  }

  /** `merge_string_map` */
  function MergeStringMap(base: Option<map<string, string>>,
          overlay: Option<map<string, string>>): Option<map<string, string>> {
    MergeOptional(base, overlay, (b: map<string, string>, o: map<string, string>) => b + o)
  }

  /** What `merge_named_map` comes to: entries of one side as they are, of both sides merged. */
  function MergeNamed<T>(base: map<string, T>, overlay: map<string, T>, merge: (T, T) -> T): map<string, T> {
    map k | k in base.Keys + overlay.Keys ::
      if k !in base then overlay[k] else if k !in overlay then base[k] else merge(base[k], overlay[k])
  }

  /** `merge_named_map` */
  method MergeNamedMap<T>(base: map<string, T>, overlay: map<string, T>,
          mergeEntry: (T, T) -> T) returns (merged: map<string, T>)
    ensures merged == MergeNamed(base, overlay, mergeEntry)
  {
    merged := base;
    var todo := overlay.Keys;
    while todo != {}
      invariant todo <= overlay.Keys
      invariant merged == MergeNamed(base, overlay - todo, mergeEntry)
      decreases todo
    {
      var key :| key in todo;
      var incoming := overlay[key];
      ghost var now := merged;
      if key in merged {
        var existing := merged[key];
        merged := merged - {key};
        merged := merged[key := mergeEntry(existing, incoming)];
      } else {
        merged := merged[key := incoming];
      }
      todo := todo - {key};
      OneEntryMore(base, overlay - (todo + {key}), key, incoming, mergeEntry);
      assert overlay - todo == (overlay - (todo + {key}))[key := incoming];
    }
    assert overlay - {} == overlay;
  }

  lemma {:induction false} OneEntryMore<T>(base: map<string, T>, overlay: map<string, T>, key: string, incoming: T,
          merge: (T, T) -> T)
    requires key !in overlay
    ensures MergeNamed(base, overlay[key := incoming], merge)
         == MergeNamed(base, overlay, merge)[key := if key in base then merge(base[key], incoming) else incoming]
    ensures key in MergeNamed(base, overlay, merge) <==> key in base
    ensures key in base ==> MergeNamed(base, overlay, merge)[key] == base[key]
  {}

  datatype ProviderRequestDefaults = ProviderRequestDefaults(
    maxTokens: Option<nat>,
    reasoningEffort: Option<string>)

  datatype CodexBehaviorLayer = CodexBehaviorLayer(
    sandboxMode: Option<string>,
    sandboxNetworkAccess: Option<bool>,
    includePlanTool: Option<bool>,
    resumeLast: Option<bool>,
    webSearch: Option<bool>,
    rmcpClient: Option<bool>,
    reasoningSummary: Option<string>,
    modelVerbosity: Option<string>)

  datatype ClaudeCodeBehaviorLayer = ClaudeCodeBehaviorLayer(
    continueConversation: Option<bool>,
    forkSession: Option<bool>,
    additionalDirectories: Option<seq<string>>,
    enableFileCheckpointing: Option<bool>,
    allowedTools: Option<seq<string>>,
    disallowedTools: Option<seq<string>>,
    mcpServers: Option<map<string, Value>>,
    maxBudgetUsd: Option<real>,
    fallbackModel: Option<string>)

  datatype ClaudeCompatibleBehaviorLayer = ClaudeCompatibleBehaviorLayer(
    base: Option<ClaudeCodeBehaviorLayer>,
    selectedModel: Option<string>,
    region: Option<string>,
    projectId: Option<string>)

  datatype PartialProviderBehaviorConfig = PartialProviderBehaviorConfig(
    codex: Option<CodexBehaviorLayer>,
    claudeCode: Option<ClaudeCodeBehaviorLayer>,
    claudeCompatible: Option<ClaudeCompatibleBehaviorLayer>)

  datatype PartialProviderConfig = PartialProviderConfig(
    driver: Option<string>,
    binary: Option<string>,
    model: Option<string>,
    args: Option<seq<string>>,
    env: Option<map<string, string>>,
    cwd: Option<string>,
    sharedAppServerKey: Option<string>,
    requestTimeoutMs: Option<nat>,
    startupTimeoutMs: Option<nat>,
    cacheDir: Option<string>,
    runtimeDir: Option<string>,
    clientName: Option<string>,
    clientVersion: Option<string>)

  datatype PartialProviderProfileConfig = PartialProviderProfileConfig(
    driver: Option<string>,
    model: Option<string>,
    defaults: ProviderRequestDefaults,
    config: PartialProviderBehaviorConfig)

  datatype PartialAgentConfig = PartialAgentConfig(
    provider: Option<string>,
    driver: Option<string>,
    profile: Option<string>,
    model: Option<string>,
    defaults: ProviderRequestDefaults,
    config: PartialProviderBehaviorConfig,
    requestExtra: map<string, Value>,
    instructions: Option<string>,
    maxTurns: Option<nat>,
    tools: Option<seq<string>>)

  datatype PartialWorkspaceConfig = PartialWorkspaceConfig(
    name: Option<string>,
    defaultProvider: Option<string>,
    dataDir: Option<string>,
    env: Option<map<string, string>>,
    profiles: map<string, PartialProviderProfileConfig>)

  datatype PartialArkyConfig = PartialArkyConfig(
    workspace: PartialWorkspaceConfig,
    providers: map<string, PartialProviderConfig>,
    profiles: map<string, PartialProviderProfileConfig>,
    agents: map<string, PartialAgentConfig>)

  const EMPTY_CONFIG: PartialArkyConfig :=
    PartialArkyConfig(PartialWorkspaceConfig(None, None, None, None, map[]), map[], map[], map[])

  function MergeDefaults(base: ProviderRequestDefaults, overlay: ProviderRequestDefaults): ProviderRequestDefaults {
    ProviderRequestDefaults(
      Or(base.maxTokens, overlay.maxTokens),
      Or(base.reasoningEffort, overlay.reasoningEffort))
  }

  function MergeCodex(base: CodexBehaviorLayer, overlay: CodexBehaviorLayer): CodexBehaviorLayer {
    CodexBehaviorLayer(
      Or(base.sandboxMode, overlay.sandboxMode),
      Or(base.sandboxNetworkAccess, overlay.sandboxNetworkAccess),
      Or(base.includePlanTool, overlay.includePlanTool),
      Or(base.resumeLast, overlay.resumeLast),
      Or(base.webSearch, overlay.webSearch),
      Or(base.rmcpClient, overlay.rmcpClient),
      Or(base.reasoningSummary, overlay.reasoningSummary),
      Or(base.modelVerbosity, overlay.modelVerbosity))
  }

  function MergeClaude(base: ClaudeCodeBehaviorLayer, overlay: ClaudeCodeBehaviorLayer): ClaudeCodeBehaviorLayer {
    ClaudeCodeBehaviorLayer(
      Or(base.continueConversation, overlay.continueConversation),
      Or(base.forkSession, overlay.forkSession),
      Or(base.additionalDirectories, overlay.additionalDirectories),
      Or(base.enableFileCheckpointing, overlay.enableFileCheckpointing),
      Or(base.allowedTools, overlay.allowedTools),
      Or(base.disallowedTools, overlay.disallowedTools),
      Or(base.mcpServers, overlay.mcpServers),
      Or(base.maxBudgetUsd, overlay.maxBudgetUsd),
      Or(base.fallbackModel, overlay.fallbackModel))
  }

  function MergeCompatible(base: ClaudeCompatibleBehaviorLayer,
          overlay: ClaudeCompatibleBehaviorLayer): ClaudeCompatibleBehaviorLayer {
    ClaudeCompatibleBehaviorLayer(
      MergeOptional(base.base, overlay.base, MergeClaude),
      Or(base.selectedModel, overlay.selectedModel),
      Or(base.region, overlay.region),
      Or(base.projectId, overlay.projectId))
  }

  function MergeBehaviors(base: PartialProviderBehaviorConfig,
          overlay: PartialProviderBehaviorConfig): PartialProviderBehaviorConfig {
    PartialProviderBehaviorConfig(
      MergeOptional(base.codex, overlay.codex, MergeCodex),
      MergeOptional(base.claudeCode, overlay.claudeCode, MergeClaude),
      MergeOptional(base.claudeCompatible, overlay.claudeCompatible, MergeCompatible))
  }

  function MergeProvider(base: PartialProviderConfig, overlay: PartialProviderConfig): PartialProviderConfig {
    PartialProviderConfig(
      Or(base.driver, overlay.driver),
      Or(base.binary, overlay.binary),
      Or(base.model, overlay.model),
      Or(base.args, overlay.args),
      MergeStringMap(base.env, overlay.env),
      Or(base.cwd, overlay.cwd),
      Or(base.sharedAppServerKey, overlay.sharedAppServerKey),
      Or(base.requestTimeoutMs, overlay.requestTimeoutMs),
      Or(base.startupTimeoutMs, overlay.startupTimeoutMs),
      Or(base.cacheDir, overlay.cacheDir),
      Or(base.runtimeDir, overlay.runtimeDir),
      Or(base.clientName, overlay.clientName),
      Or(base.clientVersion, overlay.clientVersion))
  }

  function MergeProfile(base: PartialProviderProfileConfig,
          overlay: PartialProviderProfileConfig): PartialProviderProfileConfig {
    PartialProviderProfileConfig(
      Or(base.driver, overlay.driver),
      Or(base.model, overlay.model),
      MergeDefaults(base.defaults, overlay.defaults),
      MergeBehaviors(base.config, overlay.config))
  }

  function MergeAgent(base: PartialAgentConfig, overlay: PartialAgentConfig): PartialAgentConfig {
    PartialAgentConfig(
      Or(base.provider, overlay.provider),
      Or(base.driver, overlay.driver),
      Or(base.profile, overlay.profile),
      Or(base.model, overlay.model),
      MergeDefaults(base.defaults, overlay.defaults),
      MergeBehaviors(base.config, overlay.config),
      base.requestExtra + overlay.requestExtra,
      Or(base.instructions, overlay.instructions),
      Or(base.maxTurns, overlay.maxTurns),
      Or(base.tools, overlay.tools))
  }

  function MergeWorkspace(base: PartialWorkspaceConfig, overlay: PartialWorkspaceConfig): PartialWorkspaceConfig {
    PartialWorkspaceConfig(
      Or(base.name, overlay.name),
      Or(base.defaultProvider, overlay.defaultProvider),
      Or(base.dataDir, overlay.dataDir),
      MergeStringMap(base.env, overlay.env),
      MergeNamed(base.profiles, overlay.profiles, MergeProfile))
  }

  function MergeConfig(base: PartialArkyConfig, overlay: PartialArkyConfig): PartialArkyConfig {
    PartialArkyConfig(
      MergeWorkspace(base.workspace, overlay.workspace),
      MergeNamed(base.providers, overlay.providers, MergeProvider),
      MergeNamed(base.profiles, overlay.profiles, MergeProfile),
      MergeNamed(base.agents, overlay.agents, MergeAgent))
  }

  /** `merge_config`, with its three loops. */
  method MergeTwoConfigs(base: PartialArkyConfig, overlay: PartialArkyConfig) returns (merged: PartialArkyConfig)
    ensures merged == MergeConfig(base, overlay)
  {
    var workspaceProfiles := MergeNamedMap(base.workspace.profiles, overlay.workspace.profiles, MergeProfile);
    var providers := MergeNamedMap(base.providers, overlay.providers, MergeProvider);
    var profiles := MergeNamedMap(base.profiles, overlay.profiles, MergeProfile);
    var agents := MergeNamedMap(base.agents, overlay.agents, MergeAgent);
    var workspace := PartialWorkspaceConfig(
      Or(base.workspace.name, overlay.workspace.name),
      Or(base.workspace.defaultProvider, overlay.workspace.defaultProvider),
      Or(base.workspace.dataDir, overlay.workspace.dataDir),
      MergeStringMap(base.workspace.env, overlay.workspace.env),
      workspaceProfiles);
    merged := PartialArkyConfig(workspace, providers, profiles, agents);
  }
}

/** The algebra of merging. */
module ConfigMergeLaws {
  import opened Prelude
  import opened JsonValues
  import opened ConfigMerge

  ghost predicate Associates<T(!new)>(merge: (T, T) -> T) {
    forall a, b, c :: merge(merge(a, b), c) == merge(a, merge(b, c))
  }

  lemma {:induction false} OptionalAssociates<T(!new)>(a: Option<T>, b: Option<T>, c: Option<T>, merge: (T, T) -> T)
    requires Associates(merge)
    ensures MergeOptional(MergeOptional(a, b, merge), c, merge) == MergeOptional(a, MergeOptional(b, c, merge), merge)
  {}

  lemma {:induction false} NamedAssociates<T(!new)>(a: map<string, T>, b: map<string, T>, c: map<string, T>,
          merge: (T, T) -> T)
    requires Associates(merge)
    ensures MergeNamed(MergeNamed(a, b, merge), c, merge) == MergeNamed(a, MergeNamed(b, c, merge), merge)
  {}

  lemma {:induction false} StringMapsAssociate(a: Option<map<string, string>>, b: Option<map<string, string>>,
          c: Option<map<string, string>>)
    ensures MergeStringMap(MergeStringMap(a, b), c) == MergeStringMap(a, MergeStringMap(b, c))
  {
    if a.Some? && b.Some? && c.Some? {
      assert (a.value + b.value) + c.value == a.value + (b.value + c.value);
    }
  }

  lemma {:induction false} CodexAssociates()
    ensures Associates(MergeCodex)
  {}

  lemma {:induction false} ClaudeAssociates()
    ensures Associates(MergeClaude)
  {}

  lemma {:induction false} CompatibleAssociates()
    ensures Associates(MergeCompatible)
  {}

  lemma {:induction false} BehaviorsAssociate()
    ensures Associates(MergeBehaviors)
  {
    CodexAssociates();
    ClaudeAssociates();
    CompatibleAssociates();
    forall a, b, c ensures MergeBehaviors(MergeBehaviors(a, b), c) == MergeBehaviors(a, MergeBehaviors(b, c)) {
      OptionalAssociates(a.codex, b.codex, c.codex, MergeCodex);
      OptionalAssociates(a.claudeCode, b.claudeCode, c.claudeCode, MergeClaude);
      OptionalAssociates(a.claudeCompatible, b.claudeCompatible, c.claudeCompatible, MergeCompatible);
    }
  }

  lemma {:induction false} ProviderAssociates()
    ensures Associates(MergeProvider)
  {
    forall a, b, c ensures MergeProvider(MergeProvider(a, b), c) == MergeProvider(a, MergeProvider(b, c)) {
      StringMapsAssociate(a.env, b.env, c.env);
    }
  }

  lemma {:induction false} ProfileAssociates()
    ensures Associates(MergeProfile)
  {
    BehaviorsAssociate();
    forall a, b, c ensures MergeProfile(MergeProfile(a, b), c) == MergeProfile(a, MergeProfile(b, c)) {
    }
  }

  lemma {:induction false} AgentAssociatesAt(a: PartialAgentConfig, b: PartialAgentConfig, c: PartialAgentConfig)
    requires MergeBehaviors(MergeBehaviors(a.config, b.config), c.config)
        == MergeBehaviors(a.config, MergeBehaviors(b.config, c.config))
    ensures MergeAgent(MergeAgent(a, b), c) == MergeAgent(a, MergeAgent(b, c))
  {
    assert (a.requestExtra + b.requestExtra) + c.requestExtra == a.requestExtra + (b.requestExtra + c.requestExtra);
  }

  lemma {:induction false} AgentAssociates()
    ensures Associates(MergeAgent)
  {
    BehaviorsAssociate();
    forall a, b, c ensures MergeAgent(MergeAgent(a, b), c) == MergeAgent(a, MergeAgent(b, c)) {
      AgentAssociatesAt(a, b, c);
    }
  }

  /** Merging configurations is associative. */
  lemma {:induction false} MergeAssociates(a: PartialArkyConfig, b: PartialArkyConfig, c: PartialArkyConfig)
    ensures MergeConfig(MergeConfig(a, b), c) == MergeConfig(a, MergeConfig(b, c))
  {
    ProviderAssociates();
    ProfileAssociates();
    AgentAssociates();
    NamedAssociates(a.providers, b.providers, c.providers, MergeProvider);
    NamedAssociates(a.profiles, b.profiles, c.profiles, MergeProfile);
    NamedAssociates(a.workspace.profiles, b.workspace.profiles, c.workspace.profiles, MergeProfile);
    NamedAssociates(a.agents, b.agents, c.agents, MergeAgent);
    StringMapsAssociate(a.workspace.env, b.workspace.env, c.workspace.env);
  }

  lemma {:induction false} NamedIdentity<T>(m: map<string, T>, merge: (T, T) -> T)
    ensures MergeNamed(m, map[], merge) == m && MergeNamed(map[], m, merge) == m
  {}

  /** The default configuration is a two-sided identity. */
  lemma {:induction false} EmptyIsIdentity(c: PartialArkyConfig)
    ensures MergeConfig(c, EMPTY_CONFIG) == c && MergeConfig(EMPTY_CONFIG, c) == c
  {
    NamedIdentity(c.providers, MergeProvider);
    NamedIdentity(c.profiles, MergeProfile);
    NamedIdentity(c.workspace.profiles, MergeProfile);
    NamedIdentity(c.agents, MergeAgent);
  }

  /** All sources merged, earlier ones first. */
  function MergeAll(sources: seq<PartialArkyConfig>): PartialArkyConfig {
    if sources == [] then EMPTY_CONFIG else MergeConfig(MergeAll(sources[..|sources| - 1]), sources[|sources| - 1])
  }

  lemma {:induction false} MergeAllConcat(a: seq<PartialArkyConfig>, b: seq<PartialArkyConfig>)
    ensures MergeAll(a + b) == MergeConfig(MergeAll(a), MergeAll(b))
    decreases |b|
  {
    if b == [] {
      assert a + b == a;
      EmptyIsIdentity(MergeAll(a));
    } else {
      var front, last := b[..|b| - 1], b[|b| - 1];
      MergeAllConcat(a, front);
      assert (a + b)[..|a + b| - 1] == a + front;
      MergeAssociates(MergeAll(a), MergeAll(front), last);
    }
  }

  /** `ConfigLoader::load` up to validation: builders are merged among themselves first. */
  function Load(file: Option<PartialArkyConfig>, env: PartialArkyConfig,
          builders: seq<PartialArkyConfig>): PartialArkyConfig {
    var merged := match file case Some(c) => c case None => EMPTY_CONFIG;
    MergeConfig(MergeConfig(merged, env), MergeAll(builders))
  }

  function Sources(file: Option<PartialArkyConfig>, env: PartialArkyConfig,
          builders: seq<PartialArkyConfig>): seq<PartialArkyConfig> {
    (match file case Some(c) => [c] case None => []) + [env] + builders
  }

  /** Loading is one fold over file, environment and builders in that order. */
  lemma {:induction false} LoadIsOneFold(file: Option<PartialArkyConfig>, env: PartialArkyConfig,
          builders: seq<PartialArkyConfig>)
    ensures Load(file, env, builders) == MergeAll(Sources(file, env, builders))
  {
    var first := match file case Some(c) => [c] case None => [];
    MergeAllConcat(first + [env], builders);
    MergeAllConcat(first, [env]);
    MergeAllOne(env);
    if file.Some? {
      MergeAllOne(file.value);
    }
  }

  lemma {:induction false} MergeAllOne(c: PartialArkyConfig)
    ensures MergeAll([c]) == c
  {}

  // ------------------------------------------------ leaves

  datatype Setting =
    | Text(s: string)
    | Texts(list: seq<string>)
    | Count(n: nat)
    | Amount(r: real)
    | Flag(b: bool)
    | Json(v: Value)
    | Servers(servers: map<string, Value>)

  datatype CodexLeaf = CodexSandboxMode | CodexSandboxNetworkAccess | CodexIncludePlanTool | CodexResumeLast
      | CodexWebSearch | CodexRmcpClient | CodexReasoningSummary | CodexModelVerbosity

  datatype ClaudeLeaf = ClaudeContinueConversation | ClaudeForkSession | ClaudeAdditionalDirectories
      | ClaudeEnableFileCheckpointing | ClaudeAllowedTools | ClaudeDisallowedTools | ClaudeMcpServers
      | ClaudeMaxBudgetUsd | ClaudeFallbackModel

  datatype BehaviorLeaf =
    | OfCodex(codex: CodexLeaf)
    | OfClaude(claude: ClaudeLeaf)
    | OfCompatibleBase(claude: ClaudeLeaf)
    | SelectedModel
    | Region
    | ProjectId

  datatype ProviderLeaf = ProviderDriver | ProviderBinary | ProviderModel | ProviderArgs | ProviderCwd
      | ProviderSharedAppServerKey | ProviderRequestTimeoutMs | ProviderStartupTimeoutMs | ProviderCacheDir
      | ProviderRuntimeDir | ProviderClientName | ProviderClientVersion | ProviderEnv(variable: string)

  datatype ProfileLeaf = ProfileDriver | ProfileModel | ProfileMaxTokens | ProfileEffort
      | ProfileBehavior(behavior: BehaviorLeaf)

  datatype AgentLeaf =
    | AgentProvider
    | AgentDriver
    | AgentProfile
    | AgentModel
    | AgentMaxTokens
    | AgentEffort
    | AgentBehavior(behavior: BehaviorLeaf)
    | AgentExtra(key: string)
    | AgentInstructions
    | AgentMaxTurns
    | AgentTools

  /** Every place a configuration can set a value. */
  datatype ConfigLeaf =
    | WorkspaceName
    | WorkspaceDefaultProvider
    | WorkspaceDataDir
    | WorkspaceEnv(variable: string)
    | WorkspaceProfile(name: string, profile: ProfileLeaf)
    | InProvider(name: string, provider: ProviderLeaf)
    | InProfile(name: string, profile: ProfileLeaf)
    | InAgent(name: string, agent: AgentLeaf)

  function TextAt(value: Option<string>): Option<Setting> {
    if value.Some? then Some(Text(value.value)) else None
  }

  function TextsAt(value: Option<seq<string>>): Option<Setting> {
    if value.Some? then Some(Texts(value.value)) else None
  }

  function CountAt(value: Option<nat>): Option<Setting> {
    if value.Some? then Some(Count(value.value)) else None
  }

  function AmountAt(value: Option<real>): Option<Setting> {
    if value.Some? then Some(Amount(value.value)) else None
  }

  function FlagAt(value: Option<bool>): Option<Setting> {
    if value.Some? then Some(Flag(value.value)) else None
  }

  function ServersAt(value: Option<map<string, Value>>): Option<Setting> {
    if value.Some? then Some(Servers(value.value)) else None
  }

  function Inside<T, L>(value: Option<T>, leaf: L, setting: (T, L) -> Option<Setting>): Option<Setting> {
    match value
    case Some(x) => setting(x, leaf)
    case None => None
  }

  function Named<T, L>(entries: map<string, T>, name: string, leaf: L,
          setting: (T, L) -> Option<Setting>): Option<Setting> {
    if name in entries then setting(entries[name], leaf) else None
  }

  function EnvSetting(env: Option<map<string, string>>, variable: string): Option<Setting> {
    if env.Some? && variable in env.value then Some(Text(env.value[variable])) else None
  }

  function CodexSetting(c: CodexBehaviorLayer, leaf: CodexLeaf): Option<Setting> {
    match leaf
    case CodexSandboxMode => TextAt(c.sandboxMode)
    case CodexSandboxNetworkAccess => FlagAt(c.sandboxNetworkAccess)
    case CodexIncludePlanTool => FlagAt(c.includePlanTool)
    case CodexResumeLast => FlagAt(c.resumeLast)
    case CodexWebSearch => FlagAt(c.webSearch)
    case CodexRmcpClient => FlagAt(c.rmcpClient)
    case CodexReasoningSummary => TextAt(c.reasoningSummary)
    case CodexModelVerbosity => TextAt(c.modelVerbosity)
  }

  function ClaudeSetting(c: ClaudeCodeBehaviorLayer, leaf: ClaudeLeaf): Option<Setting> {
    match leaf
    case ClaudeContinueConversation => FlagAt(c.continueConversation)
    case ClaudeForkSession => FlagAt(c.forkSession)
    case ClaudeAdditionalDirectories => TextsAt(c.additionalDirectories)
    case ClaudeEnableFileCheckpointing => FlagAt(c.enableFileCheckpointing)
    case ClaudeAllowedTools => TextsAt(c.allowedTools)
    case ClaudeDisallowedTools => TextsAt(c.disallowedTools)
    case ClaudeMcpServers => ServersAt(c.mcpServers)
    case ClaudeMaxBudgetUsd => AmountAt(c.maxBudgetUsd)
    case ClaudeFallbackModel => TextAt(c.fallbackModel)
  }

  function CompatibleBase(c: PartialProviderBehaviorConfig): Option<ClaudeCodeBehaviorLayer> {
    match c.claudeCompatible
    case Some(layer) => layer.base
    case None => None
  }

  function BehaviorSetting(c: PartialProviderBehaviorConfig, leaf: BehaviorLeaf): Option<Setting> {
    match leaf
    case OfCodex(l) => Inside(c.codex, l, CodexSetting)
    case OfClaude(l) => Inside(c.claudeCode, l, ClaudeSetting)
    case OfCompatibleBase(l) => Inside(CompatibleBase(c), l, ClaudeSetting)
    case SelectedModel => TextAt(if c.claudeCompatible.Some? then c.claudeCompatible.value.selectedModel else None)
    case Region => TextAt(if c.claudeCompatible.Some? then c.claudeCompatible.value.region else None)
    case ProjectId => TextAt(if c.claudeCompatible.Some? then c.claudeCompatible.value.projectId else None)
  }

  function ProviderSetting(c: PartialProviderConfig, leaf: ProviderLeaf): Option<Setting> {
    match leaf
    case ProviderDriver => TextAt(c.driver)
    case ProviderBinary => TextAt(c.binary)
    case ProviderModel => TextAt(c.model)
    case ProviderArgs => TextsAt(c.args)
    case ProviderCwd => TextAt(c.cwd)
    case ProviderSharedAppServerKey => TextAt(c.sharedAppServerKey)
    case ProviderRequestTimeoutMs => CountAt(c.requestTimeoutMs)
    case ProviderStartupTimeoutMs => CountAt(c.startupTimeoutMs)
    case ProviderCacheDir => TextAt(c.cacheDir)
    case ProviderRuntimeDir => TextAt(c.runtimeDir)
    case ProviderClientName => TextAt(c.clientName)
    case ProviderClientVersion => TextAt(c.clientVersion)
    case ProviderEnv(variable) => EnvSetting(c.env, variable)
  }

  function ProfileSetting(c: PartialProviderProfileConfig, leaf: ProfileLeaf): Option<Setting> {
    match leaf
    case ProfileDriver => TextAt(c.driver)
    case ProfileModel => TextAt(c.model)
    case ProfileMaxTokens => CountAt(c.defaults.maxTokens)
    case ProfileEffort => TextAt(c.defaults.reasoningEffort)
    case ProfileBehavior(l) => BehaviorSetting(c.config, l)
  }

  function AgentSetting(c: PartialAgentConfig, leaf: AgentLeaf): Option<Setting> {
    match leaf
    case AgentProvider => TextAt(c.provider)
    case AgentDriver => TextAt(c.driver)
    case AgentProfile => TextAt(c.profile)
    case AgentModel => TextAt(c.model)
    case AgentMaxTokens => CountAt(c.defaults.maxTokens)
    case AgentEffort => TextAt(c.defaults.reasoningEffort)
    case AgentBehavior(l) => BehaviorSetting(c.config, l)
    case AgentExtra(key) => if key in c.requestExtra then Some(Json(c.requestExtra[key])) else None
    case AgentInstructions => TextAt(c.instructions)
    case AgentMaxTurns => CountAt(c.maxTurns)
    case AgentTools => TextsAt(c.tools)
  }

  /** What a configuration sets at a leaf, if anything. */
  function SettingAt(c: PartialArkyConfig, leaf: ConfigLeaf): Option<Setting> {
    match leaf
    case WorkspaceName => TextAt(c.workspace.name)
    case WorkspaceDefaultProvider => TextAt(c.workspace.defaultProvider)
    case WorkspaceDataDir => TextAt(c.workspace.dataDir)
    case WorkspaceEnv(variable) => EnvSetting(c.workspace.env, variable)
    case WorkspaceProfile(name, l) => Named(c.workspace.profiles, name, l, ProfileSetting)
    case InProvider(name, l) => Named(c.providers, name, l, ProviderSetting)
    case InProfile(name, l) => Named(c.profiles, name, l, ProfileSetting)
    case InAgent(name, l) => Named(c.agents, name, l, AgentSetting)
  }

  /** At every leaf a merge sets what the overlay sets, and else what the base sets. */
  ghost predicate OverlayWins<T(!new), L(!new)>(merge: (T, T) -> T, setting: (T, L) -> Option<Setting>) {
    forall a, b, l :: setting(merge(a, b), l) == Or(setting(a, l), setting(b, l))
  }

  lemma {:induction false} InsideWins<T(!new), L(!new)>(a: Option<T>, b: Option<T>, l: L, merge: (T, T) -> T,
          setting: (T, L) -> Option<Setting>)
    requires OverlayWins(merge, setting)
    ensures Inside(MergeOptional(a, b, merge), l, setting) == Or(Inside(a, l, setting), Inside(b, l, setting))
  {}

  lemma {:induction false} NamedWins<T(!new), L(!new)>(a: map<string, T>, b: map<string, T>, name: string, l: L,
                                                      merge: (T, T) -> T, setting: (T, L) -> Option<Setting>)
    requires OverlayWins(merge, setting)
    ensures Named(MergeNamed(a, b, merge), name, l, setting)
        == Or(Named(a, name, l, setting), Named(b, name, l, setting))
  {}

  lemma {:induction false} CodexWinsAt(a: CodexBehaviorLayer, b: CodexBehaviorLayer, l: CodexLeaf)
    ensures CodexSetting(MergeCodex(a, b), l) == Or(CodexSetting(a, l), CodexSetting(b, l))
  {}

  lemma {:induction false} CodexWins()
    ensures OverlayWins(MergeCodex, CodexSetting)
  {
    forall a, b, l ensures CodexSetting(MergeCodex(a, b), l) == Or(CodexSetting(a, l), CodexSetting(b, l)) {
      CodexWinsAt(a, b, l);
    }
  }

  lemma {:induction false} ClaudeWinsAt(a: ClaudeCodeBehaviorLayer, b: ClaudeCodeBehaviorLayer, l: ClaudeLeaf)
    ensures ClaudeSetting(MergeClaude(a, b), l) == Or(ClaudeSetting(a, l), ClaudeSetting(b, l))
  {}

  lemma {:induction false} ClaudeWins()
    ensures OverlayWins(MergeClaude, ClaudeSetting)
  {
    forall a, b, l ensures ClaudeSetting(MergeClaude(a, b), l) == Or(ClaudeSetting(a, l), ClaudeSetting(b, l)) {
      ClaudeWinsAt(a, b, l);
    }
  }

  lemma {:induction false} BehaviorWinsAt(a: PartialProviderBehaviorConfig, b: PartialProviderBehaviorConfig,
          l: BehaviorLeaf)
    ensures BehaviorSetting(MergeBehaviors(a, b), l) == Or(BehaviorSetting(a, l), BehaviorSetting(b, l))
  {
    match l
    case OfCodex(k) =>
      CodexWins();
      InsideWins(a.codex, b.codex, k, MergeCodex, CodexSetting);
    case OfClaude(k) =>
      ClaudeWins();
      InsideWins(a.claudeCode, b.claudeCode, k, MergeClaude, ClaudeSetting);
    case OfCompatibleBase(k) =>
      ClaudeWins();
      InsideWins(CompatibleBase(a), CompatibleBase(b), k, MergeClaude, ClaudeSetting);
      assert CompatibleBase(MergeBehaviors(a, b)) == MergeOptional(CompatibleBase(a), CompatibleBase(b), MergeClaude);
    case _ =>
  }

  lemma {:induction false} ProviderWinsAt(a: PartialProviderConfig, b: PartialProviderConfig, l: ProviderLeaf)
    ensures ProviderSetting(MergeProvider(a, b), l) == Or(ProviderSetting(a, l), ProviderSetting(b, l))
  {}

  lemma {:induction false} ProviderWins()
    ensures OverlayWins(MergeProvider, ProviderSetting)
  {
    forall a, b, l ensures ProviderSetting(MergeProvider(a, b), l) == Or(ProviderSetting(a, l), ProviderSetting(b, l)) {
      ProviderWinsAt(a, b, l);
    }
  }

  lemma {:induction false} ProfileWinsAt(a: PartialProviderProfileConfig, b: PartialProviderProfileConfig,
          l: ProfileLeaf)
    requires l.ProfileBehavior? ==>
               (BehaviorSetting(MergeBehaviors(a.config, b.config), l.behavior)
                   == Or(BehaviorSetting(a.config, l.behavior), BehaviorSetting(b.config, l.behavior)))
    ensures ProfileSetting(MergeProfile(a, b), l) == Or(ProfileSetting(a, l), ProfileSetting(b, l))
  {}

  lemma {:induction false} ProfileWins()
    ensures OverlayWins(MergeProfile, ProfileSetting)
  {
    forall a, b, l ensures ProfileSetting(MergeProfile(a, b), l) == Or(ProfileSetting(a, l), ProfileSetting(b, l)) {
      if l.ProfileBehavior? {
        BehaviorWinsAt(a.config, b.config, l.behavior);
      }
      ProfileWinsAt(a, b, l);
    }
  }

  lemma {:induction false} AgentWinsAt(a: PartialAgentConfig, b: PartialAgentConfig, l: AgentLeaf)
    requires l.AgentBehavior? ==>
               (BehaviorSetting(MergeBehaviors(a.config, b.config), l.behavior)
                   == Or(BehaviorSetting(a.config, l.behavior), BehaviorSetting(b.config, l.behavior)))
    ensures AgentSetting(MergeAgent(a, b), l) == Or(AgentSetting(a, l), AgentSetting(b, l))
  {}

  lemma {:induction false} AgentWins()
    ensures OverlayWins(MergeAgent, AgentSetting)
  {
    forall a, b, l ensures AgentSetting(MergeAgent(a, b), l) == Or(AgentSetting(a, l), AgentSetting(b, l)) {
      if l.AgentBehavior? {
        BehaviorWinsAt(a.config, b.config, l.behavior);
      }
      AgentWinsAt(a, b, l);
    }
  }

  lemma {:induction false} MergeSetsLeaf(a: PartialArkyConfig, b: PartialArkyConfig, leaf: ConfigLeaf)
    ensures SettingAt(MergeConfig(a, b), leaf) == Or(SettingAt(a, leaf), SettingAt(b, leaf))
  {
    match leaf
    case WorkspaceProfile(name, l) =>
      ProfileWins();
      NamedWins(a.workspace.profiles, b.workspace.profiles, name, l, MergeProfile, ProfileSetting);
    case InProvider(name, l) =>
      ProviderWins();
      NamedWins(a.providers, b.providers, name, l, MergeProvider, ProviderSetting);
    case InProfile(name, l) =>
      ProfileWins();
      NamedWins(a.profiles, b.profiles, name, l, MergeProfile, ProfileSetting);
    case InAgent(name, l) =>
      AgentWins();
      NamedWins(a.agents, b.agents, name, l, MergeAgent, AgentSetting);
    case _ =>
  }

  /** Source `i` sets the leaf and no later one does. */
  predicate LastToSet(sources: seq<PartialArkyConfig>, leaf: ConfigLeaf, i: nat) {
    && i < |sources| && SettingAt(sources[i], leaf).Some?
    && forall j | i < j < |sources| :: SettingAt(sources[j], leaf).None?
  }

  /** A leaf no source sets is not set. */
  lemma {:induction false} UnsetStaysUnset(sources: seq<PartialArkyConfig>, leaf: ConfigLeaf)
    requires forall i | 0 <= i < |sources| :: SettingAt(sources[i], leaf).None?
    ensures SettingAt(MergeAll(sources), leaf) == None
  {
    if sources != [] {
      var front, last := sources[..|sources| - 1], sources[|sources| - 1];
      UnsetStaysUnset(front, leaf);
      MergeSetsLeaf(MergeAll(front), last, leaf);
    }
  }

  /** Every leaf of the merged sources has the value of the last source that sets it. */
  lemma {:induction false} LastSourceWins(sources: seq<PartialArkyConfig>, leaf: ConfigLeaf, i: nat)
    requires LastToSet(sources, leaf, i)
    ensures SettingAt(MergeAll(sources), leaf) == SettingAt(sources[i], leaf)
  {
    var n := |sources| - 1;
    var front, last := sources[..n], sources[n];
    MergeSetsLeaf(MergeAll(front), last, leaf);
    if i < n {
      LastSourceWins(front, leaf, i);
    }
  }

  /** Builder over environment over file, at every leaf. */
  lemma {:induction false} LoadPrecedence(file: Option<PartialArkyConfig>, env: PartialArkyConfig,
          builders: seq<PartialArkyConfig>, leaf: ConfigLeaf)
    ensures SettingAt(Load(file, env, builders), leaf)
         == Or(Or(match file case Some(c) => SettingAt(c, leaf) case None => None, SettingAt(env, leaf)),
               SettingAt(MergeAll(builders), leaf))
  {
    var merged := match file case Some(c) => c case None => EMPTY_CONFIG;
    MergeSetsLeaf(MergeConfig(merged, env), MergeAll(builders), leaf);
    MergeSetsLeaf(merged, env, leaf);
  }

  // ------------------------------------------------ typed behavior layers

  datatype ProviderBehaviorLayer =
    | CodexLayer(codex: CodexBehaviorLayer)
    | ClaudeCodeLayer(claude: ClaudeCodeBehaviorLayer)
    | ClaudeCompatibleLayer(compatible: ClaudeCompatibleBehaviorLayer)

  /** `ProviderBehaviorLayer::merge`: across variants the overlay replaces the base. */
  function MergeLayers(base: ProviderBehaviorLayer, overlay: ProviderBehaviorLayer): ProviderBehaviorLayer {
    match (base, overlay)
    case (CodexLayer(b), CodexLayer(o)) => CodexLayer(MergeCodex(b, o))
    case (ClaudeCodeLayer(b), ClaudeCodeLayer(o)) => ClaudeCodeLayer(MergeClaude(b, o))
    case (ClaudeCompatibleLayer(b), ClaudeCompatibleLayer(o)) => ClaudeCompatibleLayer(MergeCompatible(b, o))
    case (_, o) => o
  }

  predicate SameVariant(a: ProviderBehaviorLayer, b: ProviderBehaviorLayer) {
    (a.CodexLayer? && b.CodexLayer?) || (a.ClaudeCodeLayer? && b.ClaudeCodeLayer?)
    || (a.ClaudeCompatibleLayer? && b.ClaudeCompatibleLayer?)
  }

  predicate Kept<T>(base: Option<T>, overlay: Option<T>) {
    base.Some? ==> overlay.Some?
  }

  predicate CodexKept(base: CodexBehaviorLayer, overlay: CodexBehaviorLayer) {
    && Kept(base.sandboxMode, overlay.sandboxMode)
    && Kept(base.sandboxNetworkAccess, overlay.sandboxNetworkAccess)
    && Kept(base.includePlanTool, overlay.includePlanTool)
    && Kept(base.resumeLast, overlay.resumeLast)
    && Kept(base.webSearch, overlay.webSearch)
    && Kept(base.rmcpClient, overlay.rmcpClient)
    && Kept(base.reasoningSummary, overlay.reasoningSummary)
    && Kept(base.modelVerbosity, overlay.modelVerbosity)
  }

  predicate ClaudeKept(base: ClaudeCodeBehaviorLayer, overlay: ClaudeCodeBehaviorLayer) {
    && Kept(base.continueConversation, overlay.continueConversation)
    && Kept(base.forkSession, overlay.forkSession)
    && Kept(base.additionalDirectories, overlay.additionalDirectories)
    && Kept(base.enableFileCheckpointing, overlay.enableFileCheckpointing)
    && Kept(base.allowedTools, overlay.allowedTools)
    && Kept(base.disallowedTools, overlay.disallowedTools)
    && Kept(base.mcpServers, overlay.mcpServers)
    && Kept(base.maxBudgetUsd, overlay.maxBudgetUsd)
    && Kept(base.fallbackModel, overlay.fallbackModel)
  }

  predicate CompatibleKept(base: ClaudeCompatibleBehaviorLayer, overlay: ClaudeCompatibleBehaviorLayer) {
    && Kept(base.base, overlay.base)
    && (base.base.Some? ==> ClaudeKept(base.base.value, overlay.base.value))
    && Kept(base.selectedModel, overlay.selectedModel)
    && Kept(base.region, overlay.region)
    && Kept(base.projectId, overlay.projectId)
  }

  /** Every field the base sets, the overlay sets, so that nothing of the base shows through. */
  predicate LayerKept(base: ProviderBehaviorLayer, overlay: ProviderBehaviorLayer) {
    match (base, overlay)
    case (CodexLayer(b), CodexLayer(o)) => CodexKept(b, o)
    case (ClaudeCodeLayer(b), ClaudeCodeLayer(o)) => ClaudeKept(b, o)
    case (ClaudeCompatibleLayer(b), ClaudeCompatibleLayer(o)) => CompatibleKept(b, o)
    case _ => true
  }

  /** An overlay comes out of a merge as it was exactly when it sets every field the base does. */
  lemma {:induction false} OverlayUnchangedExactly(base: ProviderBehaviorLayer, overlay: ProviderBehaviorLayer)
    ensures MergeLayers(base, overlay) == overlay <==> LayerKept(base, overlay)
  {
    match (base, overlay)
    case (ClaudeCompatibleLayer(b), ClaudeCompatibleLayer(o)) =>
      if b.base.Some? && o.base.Some? {
        assert MergeClaude(b.base.value, o.base.value) == o.base.value <==> ClaudeKept(b.base.value, o.base.value);
      }
    case _ =>
  }

  lemma {:induction false} SameVariantAssociates(a: ProviderBehaviorLayer, b: ProviderBehaviorLayer,
          c: ProviderBehaviorLayer)
    requires !SameVariant(a, c) || SameVariant(a, b)
    ensures MergeLayers(MergeLayers(a, b), c) == MergeLayers(a, MergeLayers(b, c))
  {}

  /** Merging typed layers associates except when a layer of another variant stands between
      two of one variant and the first sets a field that the last does not set. */
  lemma {:induction false} LayersAssociateExactly(a: ProviderBehaviorLayer, b: ProviderBehaviorLayer,
          c: ProviderBehaviorLayer)
    ensures MergeLayers(MergeLayers(a, b), c) == MergeLayers(a, MergeLayers(b, c))
            <==> !SameVariant(a, c) || SameVariant(a, b) || LayerKept(a, c)
  {
    if SameVariant(a, c) && !SameVariant(a, b) {
      assert MergeLayers(a, b) == b && MergeLayers(b, c) == c;
      OverlayUnchangedExactly(a, c);
    } else {
      SameVariantAssociates(a, b, c);
    }
  }

  const NO_CODEX_FIELDS := CodexBehaviorLayer(None, None, None, None, None, None, None, None)
  const NO_CLAUDE_FIELDS := ClaudeCodeBehaviorLayer(None, None, None, None, None, None, None, None, None)

  /** A sandbox mode, then a layer for the other tool, then an empty layer: grouped to the left
      the mode is lost, grouped to the right it stays. */
  lemma {:induction false} LayerBetweenDropsField()
    ensures var a := CodexLayer(NO_CODEX_FIELDS.(sandboxMode := Some("read-only")));
            var (b, c) := (ClaudeCodeLayer(NO_CLAUDE_FIELDS), CodexLayer(NO_CODEX_FIELDS));
            MergeLayers(MergeLayers(a, b), c) == c && MergeLayers(a, MergeLayers(b, c)) == a && a != c
  {}
}
