/**
 * `LLMService`: which providers exist under a given environment, which models
 * they serve, and the routing of a chat to the provider of its model.
 */
module Llm {
  import opened Wrappers
  import opened Text
  import opened Types
  import opened Environment
  import opened LlmProvider
  import OpenAiProvider
  import ClaudeProvider
  import GoogleProvider

  /** `model_mapping`: the provider of every routable model. */
  const ModelMapping: map<string, Provider> := map[
    "gpt-5.2" := OpenAi,
    "gpt-5.2-pro" := OpenAi,
    "gemini-3-pro-preview" := Google,
    "gemini-3-flash-preview" := Google,
    "claude-opus-4-5" := Claude,
    "claude-sonnet-4-5" := Claude,
    "claude-haiku-4-5" := Claude
  ]

  /** The service after `__init__`: each configured provider with the API key it was built with. */
  datatype LLMService = LLMService(providers: map<Provider, string>)

  /** A provider is configured exactly when its key is set, and holds the key it resolved. */
  predicate ConfiguredFor(s: LLMService, env: Env) {
    && (forall p :: p in s.providers <==> HasKeyFor(env, p))
    && (OpenAi in s.providers ==> OpenAiProvider.ResolveKey(None, env) == Success(s.providers[OpenAi]))
    && (Claude in s.providers ==> ClaudeProvider.ResolveKey(None, env) == Success(s.providers[Claude]))
    && (Google in s.providers ==> GoogleProvider.ResolveKey(None, env) == Success(s.providers[Google]))
  }

  /** `__init__`: a provider is added for each key that is set. */
  method Create(env: Env) returns (s: LLMService)
    ensures ConfiguredFor(s, env)
  {
    var providers: map<Provider, string> := map[];
    if Truthy(env.openAiKey) {
      var key := OpenAiProvider.ResolveKey(None, env);
      providers := providers[OpenAi := key.value];
    }
    if Truthy(env.anthropicKey) {
      var key := ClaudeProvider.ResolveKey(None, env);
      providers := providers[Claude := key.value];
    }
    if Truthy(env.geminiKey) || Truthy(env.googleKey) {
      var key := GoogleProvider.ResolveKey(None, env);
      providers := providers[Google := key.value];
    }
    s := LLMService(providers);
    forall p ensures p in s.providers <==> HasKeyFor(env, p) {
      match p {
        case OpenAi =>
        case Claude =>
        case Google =>
      }
    }
  }

  /** `has_api_key`: the model is routable and its provider is configured. */
  function HasApiKey(s: LLMService, model: string): (b: bool)
    ensures b <==> model in ModelMapping && ModelMapping[model] in s.providers
  {
    if model !in ModelMapping then false else ModelMapping[model] in s.providers
  }

  /** `is_model_available` is `has_api_key`. */
  function IsModelAvailable(s: LLMService, model: string): (b: bool)
    ensures b == HasApiKey(s, model)
  {
    HasApiKey(s, model)
  }

  /** Under the environment the service was built from, a model is available iff its provider's key is set. */
  lemma AvailableIffKeySet(s: LLMService, env: Env, model: string)
    requires ConfiguredFor(s, env)
    ensures IsModelAvailable(s, model) <==> model in ModelMapping && HasKeyFor(env, ModelMapping[model])
  {
  }

  /** Where `stream_chat` sends a model: nowhere (two different errors) or to a configured provider. */
  datatype Route = UnknownModel | NotConfigured(provider: Provider) | Routed(provider: Provider)

  function RouteOf(s: LLMService, model: string): (r: Route)
    ensures r.Routed? <==> HasApiKey(s, model)
    ensures r == UnknownModel <==> model !in ModelMapping
    ensures !r.UnknownModel? ==> r.provider == ModelMapping[model]
  {
    if model !in ModelMapping then UnknownModel
    else if ModelMapping[model] !in s.providers then NotConfigured(ModelMapping[model])
    else Routed(ModelMapping[model])
  }

  /**
   * `stream_chat`: a ValueError before any chunk for an unknown model or an
   * unconfigured provider; otherwise exactly what the provider yields.
   * `upstream(p, messages, model)` is the stream provider `p` produces.
   */
  function StreamChat(s: LLMService, messages: seq<ChatDict>, model: string,
                      upstream: (Provider, seq<ChatDict>, string) -> ChunkStream): (r: ChunkStream)
    ensures !HasApiKey(s, model) ==> r.chunks == [] && r.raised.Some?
    ensures model !in ModelMapping ==> r.raised == Some("Unknown model: " + model)
    ensures model in ModelMapping && !HasApiKey(s, model) ==>
      r.raised == Some("API key not configured for provider: " + ProviderName(ModelMapping[model]))
    ensures HasApiKey(s, model) ==> r == upstream(ModelMapping[model], messages, model)
  {
    match RouteOf(s, model)
    case UnknownModel => ChunkStream([], Some("Unknown model: " + model))
    case NotConfigured(p) => ChunkStream([], Some("API key not configured for provider: " + ProviderName(p)))
    case Routed(p) => upstream(p, messages, model)
  }
}
