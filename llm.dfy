/** `Settings` and the `get_llm` factory (kevin_agents.py:39-143): which chat
    client, with which model, temperature and token limit, the configured
    provider yields. The clients themselves are remote services and appear
    only as the configuration they are built with. */
module LlmFactory {
  import opened Wrappers

  /** The settings `get_llm` reads (values normally come from the environment). */
  datatype Settings = Settings(
    provider: string,
    azureEndpoint: string,
    azureApiKey: string,
    azureDeployment: string,
    azureApiVersion: string,
    openAiApiKey: string,
    openAiModel: string,
    anthropicApiKey: string,
    anthropicModel: string,
    temperature: real,
    maxTokens: int)

  /** The class-level defaults of `Settings`. */
  const DefaultSettings: Settings := Settings(
    "azure", "", "", "gpt-4o", "2024-02-15-preview", "", "gpt-4o", "", "claude-sonnet-4-5-20250929", 0.1, 4000)

  /** A configured chat client. */
  datatype ChatClient =
    | AzureChat(endpoint: string, apiKey: string, deployment: string, apiVersion: string, temperature: real, maxTokens: int)
    | OpenAiChat(apiKey: string, model: string, temperature: real, maxTokens: int)
    | AnthropicChat(apiKey: string, model: string, temperature: real, maxTokens: int)
  {
    /** The model (or Azure deployment) the client talks to. */
    function Model(): string {
      match this
      case AzureChat(_, _, d, _, _, _) => d
      case OpenAiChat(_, m, _, _) => m
      case AnthropicChat(_, m, _, _) => m
    }
  }

  /** Python's `name or default` for an optional string: `None` and `""` are falsy. */
  function OrDefault(name: Option<string>, default: string): string {
    if name.Some? && name.value != [] then name.value else default
  }

  /** `get_llm(model_name, temperature)`; an unknown provider raises `ValueError`. */
  function GetLlm(settings: Settings, modelName: Option<string>, temperature: Option<real>): (r: Result<ChatClient, string>)
    ensures r.Failure? <==> settings.provider !in {"azure", "openai", "anthropic"}
    ensures r.Failure? ==> r.error == "Unsupported LLM provider: " + settings.provider
    ensures r.Success? ==>
              && (r.value.AzureChat? <==> settings.provider == "azure")
              && (r.value.OpenAiChat? <==> settings.provider == "openai")
              && (r.value.AnthropicChat? <==> settings.provider == "anthropic")
              && r.value.temperature == temperature.GetOr(settings.temperature)
              && r.value.maxTokens == settings.maxTokens
              && (r.value.AzureChat? ==>
                    && r.value.endpoint == settings.azureEndpoint && r.value.apiKey == settings.azureApiKey
                    && r.value.apiVersion == settings.azureApiVersion)
              && (r.value.OpenAiChat? ==> r.value.apiKey == settings.openAiApiKey)
              && (r.value.AnthropicChat? ==> r.value.apiKey == settings.anthropicApiKey)
  {
    var temp := temperature.GetOr(settings.temperature);
    if settings.provider == "azure" then
      Success(AzureChat(settings.azureEndpoint, settings.azureApiKey,
        OrDefault(modelName, settings.azureDeployment), settings.azureApiVersion, temp, settings.maxTokens))
    else if settings.provider == "openai" then
      Success(OpenAiChat(settings.openAiApiKey, OrDefault(modelName, settings.openAiModel), temp, settings.maxTokens))
    else if settings.provider == "anthropic" then
      Success(AnthropicChat(settings.anthropicApiKey, OrDefault(modelName, settings.anthropicModel), temp, settings.maxTokens))
    else
      Failure("Unsupported LLM provider: " + settings.provider)
  }

  /** The provider's own default model. */
  function ProviderModel(settings: Settings): string {
    if settings.provider == "azure" then settings.azureDeployment
    else if settings.provider == "openai" then settings.openAiModel
    else settings.anthropicModel
  }

  /** A non-empty model name overrides the provider's default; `None` or an
      empty name falls back to it. */
  lemma ModelChoice(settings: Settings, modelName: Option<string>, temperature: Option<real>)
    requires GetLlm(settings, modelName, temperature).Success?
    ensures var m := GetLlm(settings, modelName, temperature).value.Model();
            && (modelName.Some? && modelName.value != [] ==> m == modelName.value)
            && (modelName.None? || modelName.value == [] ==> m == ProviderModel(settings))
  {
  }

  /** The eight stages and the orchestrator build their clients with these
      temperatures and no model name. */
  datatype Agent = SopAnalysis | ProcessMapping | GapIdentification | AutomationOpportunity
                 | FutureStateDesign | TestCaseGenerator | CodeGenerator | KpiCalculator | MasterOrchestrator

  function AgentTemperature(a: Agent): real {
    match a
    case AutomationOpportunity => 0.2
    case FutureStateDesign => 0.2
    case MasterOrchestrator => 0.0
    case _ => 0.1
  }

  /** Under the default settings every agent gets an Azure client for the
      "gpt-4o" deployment, API version "2024-02-15-preview", 4000 tokens,
      at its own temperature. */
  lemma DefaultAgentClients(a: Agent)
    ensures GetLlm(DefaultSettings, None, Some(AgentTemperature(a)))
            == Success(AzureChat("", "", "gpt-4o", "2024-02-15-preview", AgentTemperature(a), 4000))
  {
  }
}
