/** src/config/agent_config_json.cpp: an agent's configuration as JSON, and merging JSON over a configuration.
    A missing value stands for the exception a typed get throws on a value of another type. */
module ConfigJson {
  import opened Options

  /** The keys the code spells out, and all other strings. */
  datatype Key =
    | Id | Name | Description | Version | Mode | ModelConfigKey | ContextConfigKey | DreamConfigKey | MemoryConfigKey
    | PromptTemplates | SkillDirectory | MaxIterations | DataBasePath | MaxConcurrentSessions | DefaultTools
    | McpServerIds | ToolDisclosureModeKey | ToolSchemaTokenBudget | ToolCatalogTokenBudget | AlwaysOnTools
    | BaseUrl | ApiKey | ModelName | Provider | FormatTypeKey | UseNativeFunctionCalling | ExtraParams | RetryPolicyKey
    | MaxRetries | BaseDelayMs | MaxDelayMs | WithJitter
    | MaxContextTokens | MaxMessages | SessionId | StoragePath | StorageTypeKey | EnableSummarization
    | HistoryPath | MaxBatchSize | MaxToolResultChars | HistoryEntryPreviewMaxChars | MemoryFileMaxChars
    | Enabled | DataPath | ServerUrl | ServerApiKey | ServerTimeoutSeconds | ServerMaxRetries | ServerCircuitThreshold
    | ServerCircuitCooldownSeconds | TokenBudget | OffloadToolResultChars | EnablePayloadOffload
    | IdleConsolidationSeconds | ExcludedConsolidationSessionIds | ModelEnabled | ModelFormatType | ModelBaseUrl
    | ModelApiKey | ModelOrganization | ModelAnthropicVersion | ModelTimeoutSeconds | ModelTemperature | ModelMaxTokens
    | EventEntityTypes | EventEntityTtlDays | Type | Value | VersionKey | Agents
    | Other(text: string)

  datatype Json =
    | Null
    | Bool(flag: bool)
    | Int(n: int)
    | Float(r: real)
    | Str(s: string)
    | Arr(items: seq<Json>)
    | Obj(fields: map<Key, Json>)

  // ---------- Typed reads of nlohmann::json ----------

  function Truncate(r: real): int {
    if r >= 0.0 then r.Floor else -((-r).Floor)
  }

  /** get<int>() takes any number and a boolean. */
  function AsInt(j: Json): Option<int> {
    match j
    case Int(n) => Some(n)
    case Float(r) => Some(Truncate(r))
    case Bool(b) => Some(if b then 1 else 0)
    case _ => None
  }

  function AsReal(j: Json): Option<real> {
    match j
    case Int(n) => Some(n as real)
    case Float(r) => Some(r)
    case _ => None
  }

  function AsBool(j: Json): Option<bool> {
    if j.Bool? then Some(j.flag) else None
  }

  function AsStr(j: Json): Option<string> {
    if j.Str? then Some(j.s) else None
  }

  /** A listed key overrides, an unlisted one leaves the old value. */
  function ReadInt(f: map<Key, Json>, k: Key, was: int): Option<int> {
    if k in f then AsInt(f[k]) else Some(was)
  }

  function ReadReal(f: map<Key, Json>, k: Key, was: real): Option<real> {
    if k in f then AsReal(f[k]) else Some(was)
  }

  function ReadBool(f: map<Key, Json>, k: Key, was: bool): Option<bool> {
    if k in f then AsBool(f[k]) else Some(was)
  }

  function ReadStr(f: map<Key, Json>, k: Key, was: string): Option<string> {
    if k in f then AsStr(f[k]) else Some(was)
  }

  function Strings(items: seq<Json>): seq<string> {
    if items == [] then []
    else (if items[0].Str? then [items[0].s] else []) + Strings(items[1..])
  }

  /** An array gives its strings; anything else leaves the old list. */
  function ReadList(f: map<Key, Json>, k: Key, was: seq<string>): seq<string> {
    if k in f && f[k].Arr? then Strings(f[k].items) else was
  }

  function ListToJson(list: seq<string>): Json {
    Arr(seq(|list|, i requires 0 <= i < |list| => Str(list[i])))
  }

  lemma {:induction false} StringsOfList(list: seq<string>)
    ensures Strings(ListToJson(list).items) == list
  {
    var items := ListToJson(list).items;
    if list != [] {
      StringsOfList(list[1..]);
      assert items[1..] == ListToJson(list[1..]).items;
    }
  }

  // ---------- Enumerations, lines 13-101 ----------

  datatype WorkMode = REACT | PLAN_AND_EXECUTE | WORKFLOW
  datatype FormatType = OPENAI | ANTHROPIC
  datatype PromptType = TEXT | FILE_PATH
  datatype StorageType = MEMORY_ONLY | JSON_FILE | DATABASE
  datatype DisclosureMode = DISABLED | PROGRESSIVE | SELECTIVE | AUTO

  function WorkModeToString(m: WorkMode): string {
    match m
    case REACT => "react"
    case PLAN_AND_EXECUTE => "plan_and_execute"
    case WORKFLOW => "workflow"
  }

  function WorkModeFromString(s: string): Option<WorkMode> {
    if s == "react" then Some(REACT)
    else if s == "plan_and_execute" then Some(PLAN_AND_EXECUTE)
    else if s == "workflow" then Some(WORKFLOW)
    else None
  }

  function FormatTypeToString(t: FormatType): string {
    match t
    case OPENAI => "openai"
    case ANTHROPIC => "anthropic"
  }

  function FormatTypeFromString(s: string): Option<FormatType> {
    if s == "openai" then Some(OPENAI) else if s == "anthropic" then Some(ANTHROPIC) else None
  }

  function PromptTypeToString(t: PromptType): string {
    match t
    case TEXT => "TEXT"
    case FILE_PATH => "FILE_PATH"
  }

  function PromptTypeFromString(s: string): Option<PromptType> {
    if s == "TEXT" then Some(TEXT) else if s == "FILE_PATH" then Some(FILE_PATH) else None
  }

  function StorageTypeToString(t: StorageType): string {
    match t
    case MEMORY_ONLY => "MEMORY_ONLY"
    case JSON_FILE => "JSON_FILE"
    case DATABASE => "DATABASE"
  }

  function StorageTypeFromString(s: string): Option<StorageType> {
    if s == "MEMORY_ONLY" then Some(MEMORY_ONLY)
    else if s == "JSON_FILE" then Some(JSON_FILE)
    else if s == "DATABASE" then Some(DATABASE)
    else None
  }

  function DisclosureToString(m: DisclosureMode): string {
    match m
    case DISABLED => "disabled"
    case PROGRESSIVE => "progressive"
    case SELECTIVE => "selective"
    case AUTO => "auto"
  }

  function DisclosureFromString(s: string): Option<DisclosureMode> {
    if s == "disabled" then Some(DISABLED)
    else if s == "progressive" then Some(PROGRESSIVE)
    else if s == "selective" then Some(SELECTIVE)
    else if s == "auto" then Some(AUTO)
    else None
  }

  /** Every enumeration reads back what it writes. */
  lemma EnumsReadBack(w: WorkMode, f: FormatType, p: PromptType, s: StorageType, d: DisclosureMode)
    ensures WorkModeFromString(WorkModeToString(w)) == Some(w)
    ensures FormatTypeFromString(FormatTypeToString(f)) == Some(f)
    ensures PromptTypeFromString(PromptTypeToString(p)) == Some(p)
    ensures StorageTypeFromString(StorageTypeToString(s)) == Some(s)
    ensures DisclosureFromString(DisclosureToString(d)) == Some(d)
  {
    assert "PROGRESSIVE"[0] != "SELECTIVE"[0];
    assert "disabled"[0] != "selective"[0] && "progressive"[0] != "selective"[0];
  }

  // ---------- ConfigNode, lines 104-150 ----------

  datatype ConfigValue =
    | IntValue(n: int)
    | FloatValue(r: real)
    | BoolValue(b: bool)
    | StrValue(s: string)
    | ListValue(list: seq<string>)
    | NodeValue(node: Option<ConfigNode>)

  datatype ConfigNode = ConfigNode(fields: map<Key, ConfigValue>)

  function ValueToJson(v: ConfigValue): Json {
    match v
    case IntValue(n) => Int(n)
    case FloatValue(r) => Float(r)
    case BoolValue(b) => Bool(b)
    case StrValue(s) => Str(s)
    case ListValue(list) => ListToJson(list)
    case NodeValue(None) => Obj(map[])
    case NodeValue(Some(node)) => NodeToJson(node)
  }

  function NodeToJson(node: ConfigNode): Json {
    Obj(map k | k in node.fields :: ValueToJson(node.fields[k]))
  }

  /** The items of an array as strings; `dump` renders what is not one. */
  function Texts(items: seq<Json>, dump: Json -> string): seq<string> {
    seq(|items|, i requires 0 <= i < |items| => if items[i].Str? then items[i].s else dump(items[i]))
  }

  function ValueFromJson(j: Json, dump: Json -> string): ConfigValue
    requires j != Null
    decreases j, 1
  {
    match j
    case Bool(b) => BoolValue(b)
    case Int(n) => IntValue(n)
    case Float(r) => FloatValue(r)
    case Str(s) => StrValue(s)
    case Arr(items) => ListValue(Texts(items, dump))
    case Obj(_) => NodeValue(Some(NodeFromJson(j, dump)))
  }

  /** Read into an empty node: null fields are passed over. */
  function NodeFromJson(j: Json, dump: Json -> string): ConfigNode
    decreases j, 0
  {
    if j.Obj? then ConfigNode(map k | k in j.fields && j.fields[k] != Null :: ValueFromJson(j.fields[k], dump))
    else ConfigNode(map[])
  }

  /** A null child pointer comes back as an empty node. */
  function NormalValue(v: ConfigValue): ConfigValue {
    match v
    case NodeValue(None) => NodeValue(Some(ConfigNode(map[])))
    case NodeValue(Some(node)) => NodeValue(Some(NormalNode(node)))
    case _ => v
  }

  function NormalNode(node: ConfigNode): ConfigNode {
    ConfigNode(map k | k in node.fields :: NormalValue(node.fields[k]))
  }

  predicate ValueHasNoNull(v: ConfigValue) {
    v.NodeValue? ==> v.node.Some? && HasNoNull(v.node.value)
  }

  predicate HasNoNull(node: ConfigNode) {
    forall k <- node.fields :: ValueHasNoNull(node.fields[k])
  }

  lemma {:induction false} ValueReadsBack(v: ConfigValue, dump: Json -> string)
    ensures ValueToJson(v) != Null && ValueFromJson(ValueToJson(v), dump) == NormalValue(v)
  {
    match v
    case NodeValue(Some(node)) => NodeReadsBack(node, dump);
    case ListValue(list) => assert Texts(ListToJson(list).items, dump) == list;
    case _ =>
  }

  /** A tree of nodes reads back as itself, but for null children. */
  lemma {:induction false} NodeReadsBack(node: ConfigNode, dump: Json -> string)
    ensures NodeFromJson(NodeToJson(node), dump) == NormalNode(node)
  {
    forall k | k in node.fields
      ensures ValueToJson(node.fields[k]) != Null
      ensures ValueFromJson(ValueToJson(node.fields[k]), dump) == NormalValue(node.fields[k])
    {
      ValueReadsBack(node.fields[k], dump);
    }
  }

  lemma {:induction false} ValueIsNormalIff(v: ConfigValue)
    ensures NormalValue(v) == v <==> ValueHasNoNull(v)
  {
    match v
    case NodeValue(Some(node)) => NodeIsNormalIff(node);
    case _ =>
  }

  lemma {:induction false} NodeIsNormalIff(node: ConfigNode)
    ensures NormalNode(node) == node <==> HasNoNull(node)
  {
    forall k | k in node.fields
      ensures NormalValue(node.fields[k]) == node.fields[k] <==> ValueHasNoNull(node.fields[k])
    {
      ValueIsNormalIff(node.fields[k]);
    }
    if NormalNode(node) == node {
      forall k | k in node.fields
        ensures ValueHasNoNull(node.fields[k])
      {
        assert NormalNode(node).fields[k] == NormalValue(node.fields[k]);
      }
    }
  }

  // ---------- The records ----------

  datatype RetryPolicy = RetryPolicy(maxRetries: int, baseDelayMs: int, maxDelayMs: int, withJitter: bool)

  datatype ModelConfig = ModelConfig(
    baseUrl: string, apiKey: string, modelName: string, provider: string, formatType: FormatType,
    useNativeFunctionCalling: bool, extraParams: ConfigNode, retryPolicy: RetryPolicy)

  datatype ContextConfig = ContextConfig(
    maxContextTokens: int, maxMessages: int, sessionId: string, storagePath: string, storageType: StorageType,
    enableSummarization: bool)

  datatype DreamConfig = DreamConfig(
    dataBasePath: string, historyPath: string, maxBatchSize: int, maxIterations: int, maxToolResultChars: int,
    historyEntryPreviewMaxChars: int, memoryFileMaxChars: int)

  datatype ServerConfig = ServerConfig(
    url: string, apiKey: string, timeoutSeconds: int, maxRetries: int, circuitThreshold: int, circuitCooldownSeconds: int)

  datatype MemoryModel = MemoryModel(
    enabled: bool, formatType: string, baseUrl: string, apiKey: string, name: string, organization: string,
    anthropicVersion: string, timeoutSeconds: int, temperature: real, maxTokens: int)

  /** The server* and model* fields of the source's MemoryConfig are grouped here. */
  datatype MemoryConfig = MemoryConfig(
    enabled: bool, mode: string, provider: string, dataPath: string, server: ServerConfig,
    tokenBudget: int, offloadToolResultChars: int, enablePayloadOffload: bool,
    idleConsolidationSeconds: int, excludedConsolidationSessionIds: seq<string>, model: MemoryModel,
    eventEntityTypes: seq<string>, eventEntityTtlDays: int, extraParams: ConfigNode)

  datatype PromptResource = PromptResource(kind: PromptType, value: string)

  datatype Limits = Limits(maxIterations: int, maxConcurrentSessions: int, toolSchemaTokenBudget: int, toolCatalogTokenBudget: int)

  datatype ToolLists = ToolLists(defaultTools: seq<string>, mcpServerIds: seq<string>, alwaysOnTools: seq<string>)

  /** The integer and the list fields of the source's AgentConfig are grouped here. */
  datatype AgentConfig = AgentConfig(
    id: string, name: string, description: string, version: string, mode: WorkMode, modelConfig: ModelConfig,
    contextConfig: ContextConfig, dreamConfig: DreamConfig, memoryConfig: MemoryConfig,
    promptTemplates: map<Key, PromptResource>, skillDirectory: string, dataBasePath: string, limits: Limits,
    tools: ToolLists, toolDisclosureMode: DisclosureMode)

  // ---------- Merging, lines 154-374 and 408-477 ----------

  function MergeRetryPolicy(j: Json, out: RetryPolicy): Option<RetryPolicy> {
    if !j.Obj? then Some(out)
    else
      var f := j.fields;
      var maxRetries :- ReadInt(f, MaxRetries, out.maxRetries);
      var baseDelayMs :- ReadInt(f, BaseDelayMs, out.baseDelayMs);
      var maxDelayMs :- ReadInt(f, MaxDelayMs, out.maxDelayMs);
      var withJitter :- ReadBool(f, WithJitter, out.withJitter);
      Some(RetryPolicy(maxRetries, baseDelayMs, maxDelayMs, withJitter))
  }

  /** An object replaces the whole node; nothing else is read. */
  function ReadNode(f: map<Key, Json>, was: ConfigNode, dump: Json -> string): ConfigNode {
    if ExtraParams in f && f[ExtraParams].Obj? then NodeFromJson(f[ExtraParams], dump) else was
  }

  function MergeModelConfig(j: Json, out: ModelConfig, dump: Json -> string): Option<ModelConfig> {
    if !j.Obj? then Some(out)
    else
      var f := j.fields;
      var baseUrl :- ReadStr(f, BaseUrl, out.baseUrl);
      var apiKey :- ReadStr(f, ApiKey, out.apiKey);
      var modelName :- ReadStr(f, ModelName, out.modelName);
      var provider :- ReadStr(f, Provider, out.provider);
      var formatType :=
        if FormatTypeKey in f && f[FormatTypeKey].Str? then FormatTypeFromString(f[FormatTypeKey].s).GetOr(out.formatType)
        else out.formatType;
      var useNative :- ReadBool(f, UseNativeFunctionCalling, out.useNativeFunctionCalling);
      var retryPolicy :- if RetryPolicyKey in f then MergeRetryPolicy(f[RetryPolicyKey], out.retryPolicy) else Some(out.retryPolicy);
      Some(ModelConfig(baseUrl, apiKey, modelName, provider, formatType, useNative,
        ReadNode(f, out.extraParams, dump), retryPolicy))
  }

  function MergeContextConfig(j: Json, out: ContextConfig): Option<ContextConfig> {
    if !j.Obj? then Some(out)
    else
      var f := j.fields;
      var maxContextTokens :- ReadInt(f, MaxContextTokens, out.maxContextTokens);
      var maxMessages :- ReadInt(f, MaxMessages, out.maxMessages);
      var sessionId :- ReadStr(f, SessionId, out.sessionId);
      var storagePath :- ReadStr(f, StoragePath, out.storagePath);
      var storageType :=
        if StorageTypeKey in f && f[StorageTypeKey].Str? then StorageTypeFromString(f[StorageTypeKey].s).GetOr(out.storageType)
        else out.storageType;
      var enableSummarization :- ReadBool(f, EnableSummarization, out.enableSummarization);
      Some(ContextConfig(maxContextTokens, maxMessages, sessionId, storagePath, storageType, enableSummarization))
  }

  function MergeDreamConfig(j: Json, out: DreamConfig): Option<DreamConfig> {
    if !j.Obj? then Some(out)
    else
      var f := j.fields;
      var dataBasePath :- ReadStr(f, DataBasePath, out.dataBasePath);
      var historyPath :- ReadStr(f, HistoryPath, out.historyPath);
      var maxBatchSize :- ReadInt(f, MaxBatchSize, out.maxBatchSize);
      var maxIterations :- ReadInt(f, MaxIterations, out.maxIterations);
      var maxToolResultChars :- ReadInt(f, MaxToolResultChars, out.maxToolResultChars);
      var preview :- ReadInt(f, HistoryEntryPreviewMaxChars, out.historyEntryPreviewMaxChars);
      var memoryFileMaxChars :- ReadInt(f, MemoryFileMaxChars, out.memoryFileMaxChars);
      Some(DreamConfig(dataBasePath, historyPath, maxBatchSize, maxIterations, maxToolResultChars, preview, memoryFileMaxChars))
  }

  function MergeServer(f: map<Key, Json>, out: ServerConfig): Option<ServerConfig> {
    var url :- ReadStr(f, ServerUrl, out.url);
    var apiKey :- ReadStr(f, ServerApiKey, out.apiKey);
    var timeoutSeconds :- ReadInt(f, ServerTimeoutSeconds, out.timeoutSeconds);
    var maxRetries :- ReadInt(f, ServerMaxRetries, out.maxRetries);
    var threshold :- ReadInt(f, ServerCircuitThreshold, out.circuitThreshold);
    var cooldown :- ReadInt(f, ServerCircuitCooldownSeconds, out.circuitCooldownSeconds);
    Some(ServerConfig(url, apiKey, timeoutSeconds, maxRetries, threshold, cooldown))
  }

  function MergeMemoryModel(f: map<Key, Json>, out: MemoryModel): Option<MemoryModel> {
    var enabled :- ReadBool(f, ModelEnabled, out.enabled);
    var formatType :- ReadStr(f, ModelFormatType, out.formatType);
    var baseUrl :- ReadStr(f, ModelBaseUrl, out.baseUrl);
    var apiKey :- ReadStr(f, ModelApiKey, out.apiKey);
    var name :- ReadStr(f, ModelName, out.name);
    var organization :- ReadStr(f, ModelOrganization, out.organization);
    var anthropicVersion :- ReadStr(f, ModelAnthropicVersion, out.anthropicVersion);
    var timeoutSeconds :- ReadInt(f, ModelTimeoutSeconds, out.timeoutSeconds);
    var temperature :- ReadReal(f, ModelTemperature, out.temperature);
    var maxTokens :- ReadInt(f, ModelMaxTokens, out.maxTokens);
    Some(MemoryModel(enabled, formatType, baseUrl, apiKey, name, organization, anthropicVersion, timeoutSeconds,
      temperature, maxTokens))
  }

  /** idleConsolidationSeconds falls back to its old place under contextConfig. */
  function ReadIdleSeconds(f: map<Key, Json>, context: Json, was: int): Option<int> {
    if IdleConsolidationSeconds in f then AsInt(f[IdleConsolidationSeconds])
    else if context.Obj? && IdleConsolidationSeconds in context.fields then AsInt(context.fields[IdleConsolidationSeconds])
    else Some(was)
  }

  function MergeMemoryConfig(j: Json, out: MemoryConfig, context: Json, dump: Json -> string): Option<MemoryConfig> {
    if !j.Obj? then Some(out)
    else
      var f := j.fields;
      var enabled :- ReadBool(f, Enabled, out.enabled);
      var mode :- ReadStr(f, Mode, out.mode);
      var provider :- ReadStr(f, Provider, out.provider);
      var dataPath :- ReadStr(f, DataPath, out.dataPath);
      var server :- MergeServer(f, out.server);
      var tokenBudget :- ReadInt(f, TokenBudget, out.tokenBudget);
      var offload :- ReadInt(f, OffloadToolResultChars, out.offloadToolResultChars);
      var enableOffload :- ReadBool(f, EnablePayloadOffload, out.enablePayloadOffload);
      var idle :- ReadIdleSeconds(f, context, out.idleConsolidationSeconds);
      var model :- MergeMemoryModel(f, out.model);
      var ttl :- ReadInt(f, EventEntityTtlDays, out.eventEntityTtlDays);
      Some(MemoryConfig(enabled, mode, provider, dataPath, server, tokenBudget, offload, enableOffload, idle,
        ReadList(f, ExcludedConsolidationSessionIds, out.excludedConsolidationSessionIds), model,
        ReadList(f, EventEntityTypes, out.eventEntityTypes), ttl, ReadNode(f, out.extraParams, dump)))
  }

  predicate IsPrompt(j: Json) {
    j.Str? || j.Obj?
  }

  function PromptFromJson(j: Json): PromptResource
    requires IsPrompt(j)
  {
    match j
    case Str(s) => PromptResource(TEXT, s)
    case Obj(f) =>
      PromptResource(
        if Type in f && f[Type].Str? then PromptTypeFromString(f[Type].s).GetOr(TEXT) else TEXT,
        if Value in f && f[Value].Str? then f[Value].s else "")
  }

  /** Listed templates override, unlisted ones stay. */
  function MergeTemplates(j: Json, out: map<Key, PromptResource>): map<Key, PromptResource> {
    if !j.Obj? then out
    else out + map k | k in j.fields && IsPrompt(j.fields[k]) :: PromptFromJson(j.fields[k])
  }

  function MergeLimits(f: map<Key, Json>, out: Limits): Option<Limits> {
    var maxIterations :- ReadInt(f, MaxIterations, out.maxIterations);
    var maxConcurrent :- ReadInt(f, MaxConcurrentSessions, out.maxConcurrentSessions);
    var schemaBudget :- ReadInt(f, ToolSchemaTokenBudget, out.toolSchemaTokenBudget);
    var catalogBudget :- ReadInt(f, ToolCatalogTokenBudget, out.toolCatalogTokenBudget);
    Some(Limits(maxIterations, maxConcurrent, schemaBudget, catalogBudget))
  }

  function MergeToolLists(f: map<Key, Json>, out: ToolLists): ToolLists {
    ToolLists(ReadList(f, DefaultTools, out.defaultTools), ReadList(f, McpServerIds, out.mcpServerIds),
      ReadList(f, AlwaysOnTools, out.alwaysOnTools))
  }

  /** A mode that is not a string throws; one that is no known name is passed over. */
  function ReadDisclosure(f: map<Key, Json>, was: DisclosureMode): Option<DisclosureMode> {
    if ToolDisclosureModeKey !in f then Some(was)
    else
      var name :- AsStr(f[ToolDisclosureModeKey]);
      Some(DisclosureFromString(name).GetOr(was))
  }

  /** MergeAgentConfigFromJson. */
  function Merge(j: Json, out: AgentConfig, dump: Json -> string): Option<AgentConfig> {
    if !j.Obj? then Some(out)
    else
      var f := j.fields;
      var id :- ReadStr(f, Id, out.id);
      var name :- ReadStr(f, Name, out.name);
      var description :- ReadStr(f, Description, out.description);
      var version :- ReadStr(f, Version, out.version);
      var mode := if Mode in f && f[Mode].Str? then WorkModeFromString(f[Mode].s).GetOr(out.mode) else out.mode;
      var model :- if ModelConfigKey in f then MergeModelConfig(f[ModelConfigKey], out.modelConfig, dump) else Some(out.modelConfig);
      var context :- if ContextConfigKey in f then MergeContextConfig(f[ContextConfigKey], out.contextConfig) else Some(out.contextConfig);
      var dream :- if DreamConfigKey in f then MergeDreamConfig(f[DreamConfigKey], out.dreamConfig) else Some(out.dreamConfig);
      var contextJson := if ContextConfigKey in f then f[ContextConfigKey] else Obj(map[]);
      var memory :- if MemoryConfigKey in f then MergeMemoryConfig(f[MemoryConfigKey], out.memoryConfig, contextJson, dump)
                    else Some(out.memoryConfig);
      var templates := if PromptTemplates in f then MergeTemplates(f[PromptTemplates], out.promptTemplates) else out.promptTemplates;
      var skillDirectory :- ReadStr(f, SkillDirectory, out.skillDirectory);
      var dataBasePath :- ReadStr(f, DataBasePath, out.dataBasePath);
      var limits :- MergeLimits(f, out.limits);
      var disclosure :- ReadDisclosure(f, out.toolDisclosureMode);
      Some(AgentConfig(id, name, description, version, mode, model, context, dream, memory, templates, skillDirectory,
        dataBasePath, limits, MergeToolLists(f, out.tools), disclosure))
  }

  // ---------- Writing ----------

  function RetryPolicyToJson(c: RetryPolicy): Json {
    Obj(map[MaxRetries := Int(c.maxRetries), BaseDelayMs := Int(c.baseDelayMs), MaxDelayMs := Int(c.maxDelayMs),
            WithJitter := Bool(c.withJitter)])
  }

  function ModelConfigToJson(c: ModelConfig): Json {
    Obj(map[BaseUrl := Str(c.baseUrl), ApiKey := Str(c.apiKey), ModelName := Str(c.modelName), Provider := Str(c.provider),
            FormatTypeKey := Str(FormatTypeToString(c.formatType)),
            UseNativeFunctionCalling := Bool(c.useNativeFunctionCalling),
            ExtraParams := NodeToJson(c.extraParams), RetryPolicyKey := RetryPolicyToJson(c.retryPolicy)])
  }

  function ContextConfigToJson(c: ContextConfig): Json {
    Obj(map[MaxContextTokens := Int(c.maxContextTokens), MaxMessages := Int(c.maxMessages), SessionId := Str(c.sessionId),
            StoragePath := Str(c.storagePath), StorageTypeKey := Str(StorageTypeToString(c.storageType)),
            EnableSummarization := Bool(c.enableSummarization)])
  }

  function DreamConfigToJson(c: DreamConfig): Json {
    Obj(map[DataBasePath := Str(c.dataBasePath), HistoryPath := Str(c.historyPath), MaxBatchSize := Int(c.maxBatchSize),
            MaxIterations := Int(c.maxIterations), MaxToolResultChars := Int(c.maxToolResultChars),
            HistoryEntryPreviewMaxChars := Int(c.historyEntryPreviewMaxChars), MemoryFileMaxChars := Int(c.memoryFileMaxChars)])
  }

  function ServerFields(c: ServerConfig): map<Key, Json> {
    map[ServerUrl := Str(c.url), ServerApiKey := Str(c.apiKey), ServerTimeoutSeconds := Int(c.timeoutSeconds),
        ServerMaxRetries := Int(c.maxRetries), ServerCircuitThreshold := Int(c.circuitThreshold),
        ServerCircuitCooldownSeconds := Int(c.circuitCooldownSeconds)]
  }

  function MemoryModelFields(c: MemoryModel): map<Key, Json> {
    map[ModelEnabled := Bool(c.enabled), ModelFormatType := Str(c.formatType), ModelBaseUrl := Str(c.baseUrl),
        ModelApiKey := Str(c.apiKey), ModelName := Str(c.name), ModelOrganization := Str(c.organization),
        ModelAnthropicVersion := Str(c.anthropicVersion), ModelTimeoutSeconds := Int(c.timeoutSeconds),
        ModelTemperature := Float(c.temperature), ModelMaxTokens := Int(c.maxTokens)]
  }

  function MemoryOwnFields(c: MemoryConfig): map<Key, Json> {
    map[Enabled := Bool(c.enabled), Mode := Str(c.mode), Provider := Str(c.provider), DataPath := Str(c.dataPath),
        TokenBudget := Int(c.tokenBudget), OffloadToolResultChars := Int(c.offloadToolResultChars),
        EnablePayloadOffload := Bool(c.enablePayloadOffload), IdleConsolidationSeconds := Int(c.idleConsolidationSeconds),
        ExcludedConsolidationSessionIds := ListToJson(c.excludedConsolidationSessionIds),
        EventEntityTypes := ListToJson(c.eventEntityTypes), EventEntityTtlDays := Int(c.eventEntityTtlDays),
        ExtraParams := NodeToJson(c.extraParams)]
  }

  function MemoryConfigToJson(c: MemoryConfig): Json {
    Obj(MemoryOwnFields(c) + ServerFields(c.server) + MemoryModelFields(c.model))
  }

  function PromptToJson(p: PromptResource): Json {
    Obj(map[Type := Str(PromptTypeToString(p.kind)), Value := Str(p.value)])
  }

  function TemplatesToJson(m: map<Key, PromptResource>): Json {
    Obj(map k | k in m :: PromptToJson(m[k]))
  }

  function LimitFields(c: Limits): map<Key, Json> {
    map[MaxIterations := Int(c.maxIterations), MaxConcurrentSessions := Int(c.maxConcurrentSessions),
        ToolSchemaTokenBudget := Int(c.toolSchemaTokenBudget), ToolCatalogTokenBudget := Int(c.toolCatalogTokenBudget)]
  }

  function ToolListFields(c: ToolLists): map<Key, Json> {
    map[DefaultTools := ListToJson(c.defaultTools), McpServerIds := ListToJson(c.mcpServerIds),
        AlwaysOnTools := ListToJson(c.alwaysOnTools)]
  }

  function AgentOwnFields(c: AgentConfig): map<Key, Json> {
    map[Id := Str(c.id), Name := Str(c.name), Description := Str(c.description), Version := Str(c.version),
        Mode := Str(WorkModeToString(c.mode)), ModelConfigKey := ModelConfigToJson(c.modelConfig),
        ContextConfigKey := ContextConfigToJson(c.contextConfig), DreamConfigKey := DreamConfigToJson(c.dreamConfig),
        MemoryConfigKey := MemoryConfigToJson(c.memoryConfig), PromptTemplates := TemplatesToJson(c.promptTemplates),
        SkillDirectory := Str(c.skillDirectory), DataBasePath := Str(c.dataBasePath),
        ToolDisclosureModeKey := Str(DisclosureToString(c.toolDisclosureMode))]
  }

  /** AgentConfigToJson. */
  function ToJson(c: AgentConfig): Json {
    Obj(AgentOwnFields(c) + LimitFields(c.limits) + ToolListFields(c.tools))
  }

  // ---------- The round trip ----------

  /** Every field of `part` stands in `f` as it is. */
  ghost predicate Includes(f: map<Key, Json>, part: map<Key, Json>) {
    forall k <- part :: k in f && f[k] == part[k]
  }

  lemma UnionIncludes(a: map<Key, Json>, b: map<Key, Json>, c: map<Key, Json>)
    requires a.Keys !! b.Keys !! c.Keys
    ensures Includes(a + b + c, a) && Includes(a + b + c, b) && Includes(a + b + c, c)
  {
  }

  lemma RetryPolicyReadsBack(c: RetryPolicy, out: RetryPolicy)
    ensures MergeRetryPolicy(RetryPolicyToJson(c), out) == Some(c)
  {
  }

  lemma ModelReadsBack(c: ModelConfig, out: ModelConfig, dump: Json -> string)
    ensures MergeModelConfig(ModelConfigToJson(c), out, dump) == Some(c.(extraParams := NormalNode(c.extraParams)))
  {
    hide MergeRetryPolicy, RetryPolicyToJson, NodeFromJson, NormalNode, FormatTypeFromString, FormatTypeToString;
    RetryPolicyReadsBack(c.retryPolicy, out.retryPolicy);
    NodeReadsBack(c.extraParams, dump);
    EnumsReadBack(REACT, c.formatType, TEXT, DATABASE, AUTO);
  }

  lemma ContextReadsBack(c: ContextConfig, out: ContextConfig)
    ensures MergeContextConfig(ContextConfigToJson(c), out) == Some(c)
  {
    hide StorageTypeFromString, StorageTypeToString;
    EnumsReadBack(REACT, OPENAI, TEXT, c.storageType, AUTO);
  }

  lemma DreamReadsBack(c: DreamConfig, out: DreamConfig)
    ensures MergeDreamConfig(DreamConfigToJson(c), out) == Some(c)
  {
  }

  lemma ServerReadsBack(f: map<Key, Json>, c: ServerConfig, out: ServerConfig)
    requires Includes(f, ServerFields(c))
    ensures MergeServer(f, out) == Some(c)
  {
    assert ServerUrl in ServerFields(c) && ServerApiKey in ServerFields(c) && ServerTimeoutSeconds in ServerFields(c);
    assert ServerMaxRetries in ServerFields(c) && ServerCircuitThreshold in ServerFields(c);
    assert ServerCircuitCooldownSeconds in ServerFields(c);
  }

  lemma MemoryModelReadsBack(f: map<Key, Json>, c: MemoryModel, out: MemoryModel)
    requires Includes(f, MemoryModelFields(c))
    ensures MergeMemoryModel(f, out) == Some(c)
  {
    var own := MemoryModelFields(c);
    assert ModelEnabled in own && ModelFormatType in own && ModelBaseUrl in own && ModelApiKey in own && ModelName in own;
    assert ModelOrganization in own && ModelAnthropicVersion in own && ModelTimeoutSeconds in own;
    assert ModelTemperature in own && ModelMaxTokens in own;
  }

  /** Which group of fields a key belongs to, where a record is written in groups. */
  function Group(k: Key): nat {
    if k.ServerUrl? || k.ServerApiKey? || k.ServerTimeoutSeconds? || k.ServerMaxRetries? || k.ServerCircuitThreshold?
       || k.ServerCircuitCooldownSeconds? then 1
    else if k.ModelEnabled? || k.ModelFormatType? || k.ModelBaseUrl? || k.ModelApiKey? || k.ModelName? || k.ModelOrganization?
       || k.ModelAnthropicVersion? || k.ModelTimeoutSeconds? || k.ModelTemperature? || k.ModelMaxTokens? then 2
    else if k.MaxIterations? || k.MaxConcurrentSessions? || k.ToolSchemaTokenBudget? || k.ToolCatalogTokenBudget? then 3
    else if k.DefaultTools? || k.McpServerIds? || k.AlwaysOnTools? then 4
    else 0
  }

  ghost predicate InGroup(part: map<Key, Json>, g: nat) {
    forall k <- part :: Group(k) == g
  }

  lemma MemoryKeysDiffer(c: MemoryConfig)
    ensures InGroup(MemoryOwnFields(c), 0) && InGroup(ServerFields(c.server), 1) && InGroup(MemoryModelFields(c.model), 2)
  {
    hide ListToJson, NodeToJson, MemoryOwnFields, ServerFields, MemoryModelFields, InGroup;
    MemoryOwnKeys(c);
    ServerKeys(c.server);
    MemoryModelKeys(c.model);
  }

  lemma MemoryOwnKeys(c: MemoryConfig)
    ensures InGroup(MemoryOwnFields(c), 0)
  {
    hide ListToJson, NodeToJson;
  }

  lemma ServerKeys(c: ServerConfig)
    ensures InGroup(ServerFields(c), 1)
  {
  }

  lemma MemoryModelKeys(c: MemoryModel)
    ensures InGroup(MemoryModelFields(c), 2)
  {
  }

  lemma GroupsDiffer(a: map<Key, Json>, b: map<Key, Json>, c: map<Key, Json>, g: nat, h: nat, i: nat)
    requires InGroup(a, g) && InGroup(b, h) && InGroup(c, i) && g != h && h != i && g != i
    ensures a.Keys !! b.Keys !! c.Keys
  {
    hide Group;
  }

  /** The values the memory fields stand for. */
  lemma MemoryLookups(f: map<Key, Json>, c: MemoryConfig)
    requires Includes(f, MemoryOwnFields(c))
    ensures Enabled in f && f[Enabled] == Bool(c.enabled)
    ensures Mode in f && f[Mode] == Str(c.mode)
    ensures Provider in f && f[Provider] == Str(c.provider)
    ensures DataPath in f && f[DataPath] == Str(c.dataPath)
    ensures TokenBudget in f && f[TokenBudget] == Int(c.tokenBudget)
    ensures OffloadToolResultChars in f && f[OffloadToolResultChars] == Int(c.offloadToolResultChars)
  {
    hide ListToJson, NodeToJson;
    var own := MemoryOwnFields(c);
    assert Enabled in own && Mode in own && Provider in own && DataPath in own && TokenBudget in own;
    assert OffloadToolResultChars in own;
  }

  lemma MoreMemoryLookups(f: map<Key, Json>, c: MemoryConfig)
    requires Includes(f, MemoryOwnFields(c))
    ensures EnablePayloadOffload in f && f[EnablePayloadOffload] == Bool(c.enablePayloadOffload)
    ensures IdleConsolidationSeconds in f && f[IdleConsolidationSeconds] == Int(c.idleConsolidationSeconds)
    ensures ExcludedConsolidationSessionIds in f
      && f[ExcludedConsolidationSessionIds] == ListToJson(c.excludedConsolidationSessionIds)
    ensures EventEntityTypes in f && f[EventEntityTypes] == ListToJson(c.eventEntityTypes)
    ensures EventEntityTtlDays in f && f[EventEntityTtlDays] == Int(c.eventEntityTtlDays)
    ensures ExtraParams in f && f[ExtraParams] == NodeToJson(c.extraParams)
  {
    hide ListToJson, NodeToJson;
    var own := MemoryOwnFields(c);
    assert EnablePayloadOffload in own && IdleConsolidationSeconds in own;
    assert ExcludedConsolidationSessionIds in own && EventEntityTypes in own && EventEntityTtlDays in own && ExtraParams in own;
  }

  lemma MemoryOwnReadsBack(f: map<Key, Json>, c: MemoryConfig, out: MemoryConfig, context: Json, dump: Json -> string)
    requires Includes(f, MemoryOwnFields(c))
    requires MergeServer(f, out.server) == Some(c.server) && MergeMemoryModel(f, out.model) == Some(c.model)
    ensures MergeMemoryConfig(Obj(f), out, context, dump) == Some(c.(extraParams := NormalNode(c.extraParams)))
  {
    hide MergeServer, MergeMemoryModel, NodeFromJson, NodeToJson, NormalNode, ListToJson, ReadList, ReadNode, Includes,
      MemoryOwnFields;
    MemoryLookups(f, c);
    MoreMemoryLookups(f, c);
    ExtraReadsBack(f, c.extraParams, out.extraParams, dump);
    ListReadsBack(f, ExcludedConsolidationSessionIds, c.excludedConsolidationSessionIds, out.excludedConsolidationSessionIds);
    ListReadsBack(f, EventEntityTypes, c.eventEntityTypes, out.eventEntityTypes);
  }

  lemma ExtraReadsBack(f: map<Key, Json>, node: ConfigNode, was: ConfigNode, dump: Json -> string)
    requires ExtraParams in f && f[ExtraParams] == NodeToJson(node)
    ensures ReadNode(f, was, dump) == NormalNode(node)
  {
    NodeReadsBack(node, dump);
  }

  lemma MemoryReadsBack(c: MemoryConfig, out: MemoryConfig, context: Json, dump: Json -> string)
    ensures MergeMemoryConfig(MemoryConfigToJson(c), out, context, dump)
      == Some(c.(extraParams := NormalNode(c.extraParams)))
  {
    hide MergeServer, MergeMemoryModel, MergeMemoryConfig, NormalNode, MemoryOwnFields, ServerFields, MemoryModelFields, Includes, InGroup;
    var f := MemoryConfigToJson(c).fields;
    MemoryKeysDiffer(c);
    GroupsDiffer(MemoryOwnFields(c), ServerFields(c.server), MemoryModelFields(c.model), 0, 1, 2);
    UnionIncludes(MemoryOwnFields(c), ServerFields(c.server), MemoryModelFields(c.model));
    ServerReadsBack(f, c.server, out.server);
    MemoryModelReadsBack(f, c.model, out.model);
    MemoryOwnReadsBack(f, c, out, context, dump);
  }

  lemma ListReadsBack(f: map<Key, Json>, k: Key, list: seq<string>, was: seq<string>)
    requires k in f && f[k] == ListToJson(list)
    ensures ReadList(f, k, was) == list
  {
    StringsOfList(list);
  }

  lemma PromptReadsBack(p: PromptResource)
    ensures IsPrompt(PromptToJson(p)) && PromptFromJson(PromptToJson(p)) == p
  {
    hide PromptTypeFromString, PromptTypeToString;
    EnumsReadBack(REACT, OPENAI, p.kind, DATABASE, AUTO);
  }

  lemma TemplatesReadBack(m: map<Key, PromptResource>, out: map<Key, PromptResource>)
    ensures MergeTemplates(TemplatesToJson(m), out) == out + m
  {
    hide PromptFromJson, PromptToJson, IsPrompt;
    forall k | k in m
      ensures IsPrompt(PromptToJson(m[k])) && PromptFromJson(PromptToJson(m[k])) == m[k]
    {
      PromptReadsBack(m[k]);
    }
  }

  lemma LimitsReadBack(f: map<Key, Json>, c: Limits, out: Limits)
    requires Includes(f, LimitFields(c))
    ensures MergeLimits(f, out) == Some(c)
  {
    assert MaxIterations in LimitFields(c) && MaxConcurrentSessions in LimitFields(c);
    assert ToolSchemaTokenBudget in LimitFields(c) && ToolCatalogTokenBudget in LimitFields(c);
  }

  lemma ToolListsReadBack(f: map<Key, Json>, c: ToolLists, out: ToolLists)
    requires Includes(f, ToolListFields(c))
    ensures MergeToolLists(f, out) == c
  {
    hide ListToJson, ReadList;
    assert DefaultTools in ToolListFields(c) && McpServerIds in ToolListFields(c) && AlwaysOnTools in ToolListFields(c);
    ListReadsBack(f, DefaultTools, c.defaultTools, out.defaultTools);
    ListReadsBack(f, McpServerIds, c.mcpServerIds, out.mcpServerIds);
    ListReadsBack(f, AlwaysOnTools, c.alwaysOnTools, out.alwaysOnTools);
  }

  /** The configuration with its null child pointers filled in. */
  function Normal(c: AgentConfig): AgentConfig {
    c.(modelConfig := c.modelConfig.(extraParams := NormalNode(c.modelConfig.extraParams)),
       memoryConfig := c.memoryConfig.(extraParams := NormalNode(c.memoryConfig.extraParams)))
  }

  lemma AgentOwnKeys(c: AgentConfig)
    ensures InGroup(AgentOwnFields(c), 0)
  {
    hide ListToJson, ModelConfigToJson, ContextConfigToJson, DreamConfigToJson, MemoryConfigToJson, TemplatesToJson,
      WorkModeToString, DisclosureToString;
  }

  lemma LimitKeys(c: Limits)
    ensures InGroup(LimitFields(c), 3)
  {
  }

  lemma ToolListKeys(c: ToolLists)
    ensures InGroup(ToolListFields(c), 4)
  {
    hide ListToJson;
  }

  lemma AgentKeysDiffer(c: AgentConfig)
    ensures InGroup(AgentOwnFields(c), 0) && InGroup(LimitFields(c.limits), 3) && InGroup(ToolListFields(c.tools), 4)
  {
    hide AgentOwnFields, LimitFields, ToolListFields, InGroup;
    AgentOwnKeys(c);
    LimitKeys(c.limits);
    ToolListKeys(c.tools);
  }

  /** The parts of a written configuration that are records of their own. */
  ghost predicate PartsReadBack(f: map<Key, Json>, c: AgentConfig, out: AgentConfig, dump: Json -> string) {
    && MergeModelConfig(ModelConfigToJson(c.modelConfig), out.modelConfig, dump) == Some(Normal(c).modelConfig)
    && MergeContextConfig(ContextConfigToJson(c.contextConfig), out.contextConfig) == Some(c.contextConfig)
    && MergeDreamConfig(DreamConfigToJson(c.dreamConfig), out.dreamConfig) == Some(c.dreamConfig)
    && MergeMemoryConfig(MemoryConfigToJson(c.memoryConfig), out.memoryConfig, ContextConfigToJson(c.contextConfig), dump)
      == Some(Normal(c).memoryConfig)
    && MergeTemplates(TemplatesToJson(c.promptTemplates), out.promptTemplates) == out.promptTemplates + c.promptTemplates
    && MergeLimits(f, out.limits) == Some(c.limits) && MergeToolLists(f, out.tools) == c.tools
  }

  /** The values the agent fields stand for. */
  lemma AgentLookups(f: map<Key, Json>, c: AgentConfig)
    requires Includes(f, AgentOwnFields(c))
    ensures Id in f && f[Id] == Str(c.id)
    ensures Name in f && f[Name] == Str(c.name)
    ensures Description in f && f[Description] == Str(c.description)
    ensures Version in f && f[Version] == Str(c.version)
  {
    hide ModelConfigToJson, ContextConfigToJson, DreamConfigToJson, MemoryConfigToJson, TemplatesToJson,
      WorkModeToString, DisclosureToString;
    var own := AgentOwnFields(c);
    assert Id in own && Name in own && Description in own && Version in own;
  }

  lemma MoreAgentLookups(f: map<Key, Json>, c: AgentConfig)
    requires Includes(f, AgentOwnFields(c))
    ensures Mode in f && f[Mode] == Str(WorkModeToString(c.mode))
    ensures SkillDirectory in f && f[SkillDirectory] == Str(c.skillDirectory)
    ensures DataBasePath in f && f[DataBasePath] == Str(c.dataBasePath)
    ensures ToolDisclosureModeKey in f && f[ToolDisclosureModeKey] == Str(DisclosureToString(c.toolDisclosureMode))
  {
    hide ModelConfigToJson, ContextConfigToJson, DreamConfigToJson, MemoryConfigToJson, TemplatesToJson,
      WorkModeToString, DisclosureToString;
    var own := AgentOwnFields(c);
    assert Mode in own && SkillDirectory in own && DataBasePath in own && ToolDisclosureModeKey in own;
  }

  lemma AgentPartLookups(f: map<Key, Json>, c: AgentConfig)
    requires Includes(f, AgentOwnFields(c))
    ensures ModelConfigKey in f && f[ModelConfigKey] == ModelConfigToJson(c.modelConfig)
    ensures ContextConfigKey in f && f[ContextConfigKey] == ContextConfigToJson(c.contextConfig)
    ensures DreamConfigKey in f && f[DreamConfigKey] == DreamConfigToJson(c.dreamConfig)
    ensures MemoryConfigKey in f && f[MemoryConfigKey] == MemoryConfigToJson(c.memoryConfig)
    ensures PromptTemplates in f && f[PromptTemplates] == TemplatesToJson(c.promptTemplates)
  {
    hide ModelConfigToJson, ContextConfigToJson, DreamConfigToJson, MemoryConfigToJson, TemplatesToJson,
      WorkModeToString, DisclosureToString;
    var own := AgentOwnFields(c);
    assert ModelConfigKey in own && ContextConfigKey in own && DreamConfigKey in own && MemoryConfigKey in own;
    assert PromptTemplates in own;
  }

  lemma AgentOwnReadsBack(f: map<Key, Json>, c: AgentConfig, out: AgentConfig, dump: Json -> string)
    requires Includes(f, AgentOwnFields(c)) && PartsReadBack(f, c, out, dump)
    ensures Merge(Obj(f), out, dump) == Some(Normal(c).(promptTemplates := out.promptTemplates + c.promptTemplates))
  {
    hide MergeModelConfig, MergeContextConfig, MergeDreamConfig, MergeMemoryConfig, MergeTemplates, MergeLimits, MergeToolLists,
      ModelConfigToJson, ContextConfigToJson, DreamConfigToJson, MemoryConfigToJson, TemplatesToJson, NormalNode,
      WorkModeFromString, WorkModeToString, DisclosureFromString, DisclosureToString, AgentOwnFields, Includes;
    AgentLookups(f, c);
    MoreAgentLookups(f, c);
    AgentPartLookups(f, c);
    EnumsReadBack(c.mode, OPENAI, TEXT, DATABASE, c.toolDisclosureMode);
  }

  /** Merging a written configuration over any other gives it back, over whatever was there, but for two things:
      null child pointers are filled in, and prompt templates it does not list stay. */
  lemma WrittenReadsBack(c: AgentConfig, out: AgentConfig, dump: Json -> string)
    ensures Merge(ToJson(c), out, dump) == Some(Normal(c).(promptTemplates := out.promptTemplates + c.promptTemplates))
  {
    hide Merge, MergeModelConfig, MergeContextConfig, MergeDreamConfig, MergeMemoryConfig, MergeTemplates, MergeLimits,
      MergeToolLists, ModelConfigToJson, ContextConfigToJson, DreamConfigToJson, MemoryConfigToJson, TemplatesToJson,
      NormalNode, AgentOwnFields, LimitFields, ToolListFields, Includes, InGroup;
    var f := ToJson(c).fields;
    AgentKeysDiffer(c);
    GroupsDiffer(AgentOwnFields(c), LimitFields(c.limits), ToolListFields(c.tools), 0, 3, 4);
    UnionIncludes(AgentOwnFields(c), LimitFields(c.limits), ToolListFields(c.tools));
    ModelReadsBack(c.modelConfig, out.modelConfig, dump);
    ContextReadsBack(c.contextConfig, out.contextConfig);
    DreamReadsBack(c.dreamConfig, out.dreamConfig);
    MemoryReadsBack(c.memoryConfig, out.memoryConfig, ContextConfigToJson(c.contextConfig), dump);
    TemplatesReadBack(c.promptTemplates, out.promptTemplates);
    LimitsReadBack(f, c.limits, out.limits);
    ToolListsReadBack(f, c.tools, out.tools);
    AgentOwnReadsBack(f, c, out, dump);
  }

  predicate NoNullChildren(c: AgentConfig) {
    HasNoNull(c.modelConfig.extraParams) && HasNoNull(c.memoryConfig.extraParams)
  }

  /** Over a configuration without templates the round trip is exact just when no child pointer is null. */
  lemma RoundTripIff(c: AgentConfig, out: AgentConfig, dump: Json -> string)
    requires out.promptTemplates == map[]
    ensures Merge(ToJson(c), out, dump) == Some(c) <==> NoNullChildren(c)
  {
    hide Merge, ToJson, NormalNode, HasNoNull;
    WrittenReadsBack(c, out, dump);
    assert map[] + c.promptTemplates == c.promptTemplates;
    NodeIsNormalIff(c.modelConfig.extraParams);
    NodeIsNormalIff(c.memoryConfig.extraParams);
  }

  // ---------- Overriding twice ----------

  lemma RetryPolicyTwice(j: Json, out: RetryPolicy)
    requires MergeRetryPolicy(j, out).Some?
    ensures MergeRetryPolicy(j, MergeRetryPolicy(j, out).value) == MergeRetryPolicy(j, out)
  {
  }

  lemma ModelTwice(j: Json, out: ModelConfig, dump: Json -> string)
    requires MergeModelConfig(j, out, dump).Some?
    ensures MergeModelConfig(j, MergeModelConfig(j, out, dump).value, dump) == MergeModelConfig(j, out, dump)
  {
    hide MergeRetryPolicy, NodeFromJson, FormatTypeFromString;
    if j.Obj? && RetryPolicyKey in j.fields {
      RetryPolicyTwice(j.fields[RetryPolicyKey], out.retryPolicy);
    }
  }

  lemma ContextTwice(j: Json, out: ContextConfig)
    requires MergeContextConfig(j, out).Some?
    ensures MergeContextConfig(j, MergeContextConfig(j, out).value) == MergeContextConfig(j, out)
  {
    hide StorageTypeFromString;
  }

  lemma DreamTwice(j: Json, out: DreamConfig)
    requires MergeDreamConfig(j, out).Some?
    ensures MergeDreamConfig(j, MergeDreamConfig(j, out).value) == MergeDreamConfig(j, out)
  {
  }

  lemma ServerTwice(f: map<Key, Json>, out: ServerConfig)
    requires MergeServer(f, out).Some?
    ensures MergeServer(f, MergeServer(f, out).value) == MergeServer(f, out)
  {
  }

  /** A typed read over its own result. */
  lemma ReadTwice(f: map<Key, Json>)
    ensures forall k, was :: ReadStr(f, k, was).Some? ==> ReadStr(f, k, ReadStr(f, k, was).value) == ReadStr(f, k, was)
    ensures forall k, was :: ReadInt(f, k, was).Some? ==> ReadInt(f, k, ReadInt(f, k, was).value) == ReadInt(f, k, was)
    ensures forall k, was :: ReadReal(f, k, was).Some? ==> ReadReal(f, k, ReadReal(f, k, was).value) == ReadReal(f, k, was)
    ensures forall k, was :: ReadBool(f, k, was).Some? ==> ReadBool(f, k, ReadBool(f, k, was).value) == ReadBool(f, k, was)
  {
  }

  lemma MemoryModelTwice(f: map<Key, Json>, out: MemoryModel)
    requires MergeMemoryModel(f, out).Some?
    ensures MergeMemoryModel(f, MergeMemoryModel(f, out).value) == MergeMemoryModel(f, out)
  {
    hide ReadStr, ReadInt, ReadReal, ReadBool;
    ReadTwice(f);
  }

  lemma MemoryTwice(j: Json, out: MemoryConfig, context: Json, dump: Json -> string)
    requires MergeMemoryConfig(j, out, context, dump).Some?
    ensures MergeMemoryConfig(j, MergeMemoryConfig(j, out, context, dump).value, context, dump)
      == MergeMemoryConfig(j, out, context, dump)
  {
    hide MergeServer, MergeMemoryModel, NodeFromJson, Strings;
    if j.Obj? {
      ServerTwice(j.fields, out.server);
      MemoryModelTwice(j.fields, out.model);
    }
  }

  lemma TemplatesTwice(j: Json, out: map<Key, PromptResource>)
    ensures MergeTemplates(j, MergeTemplates(j, out)) == MergeTemplates(j, out)
  {
    hide PromptFromJson, IsPrompt;
  }

  lemma LimitsTwice(f: map<Key, Json>, out: Limits)
    requires MergeLimits(f, out).Some?
    ensures MergeLimits(f, MergeLimits(f, out).value) == MergeLimits(f, out)
  {
  }

  /** The parts of an override that are records of their own can be applied. */
  predicate PartsMerge(f: map<Key, Json>, out: AgentConfig, dump: Json -> string) {
    && (ModelConfigKey in f ==> MergeModelConfig(f[ModelConfigKey], out.modelConfig, dump).Some?)
    && (ContextConfigKey in f ==> MergeContextConfig(f[ContextConfigKey], out.contextConfig).Some?)
    && (DreamConfigKey in f ==> MergeDreamConfig(f[DreamConfigKey], out.dreamConfig).Some?)
    && (MemoryConfigKey in f ==>
          MergeMemoryConfig(f[MemoryConfigKey], out.memoryConfig,
            if ContextConfigKey in f then f[ContextConfigKey] else Obj(map[]), dump).Some?)
    && MergeLimits(f, out.limits).Some?
  }

  /** Applying the same override a second time changes nothing, whatever it lists. */
  lemma MergingTwiceIsMergingOnce(j: Json, out: AgentConfig, dump: Json -> string)
    requires Merge(j, out, dump).Some?
    ensures Merge(j, Merge(j, out, dump).value, dump) == Merge(j, out, dump)
  {
    hide MergeModelConfig, MergeContextConfig, MergeDreamConfig, MergeMemoryConfig, MergeTemplates, MergeLimits,
      WorkModeFromString, DisclosureFromString, Strings;
    if j.Obj? {
      var f := j.fields;
      assert PartsMerge(f, out, dump);
      if ModelConfigKey in f {
        ModelTwice(f[ModelConfigKey], out.modelConfig, dump);
      }
      if ContextConfigKey in f {
        ContextTwice(f[ContextConfigKey], out.contextConfig);
      }
      if DreamConfigKey in f {
        DreamTwice(f[DreamConfigKey], out.dreamConfig);
      }
      if MemoryConfigKey in f {
        MemoryTwice(f[MemoryConfigKey], out.memoryConfig, if ContextConfigKey in f then f[ContextConfigKey] else Obj(map[]), dump);
      }
      if PromptTemplates in f {
        TemplatesTwice(f[PromptTemplates], out.promptTemplates);
      }
      LimitsTwice(f, out.limits);
    }
  }
}
