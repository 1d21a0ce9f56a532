/** The process environment the server reads its API keys from. */
module Environment {
  import opened Wrappers
  import opened Text
  import opened Types

  /** `os.getenv` of the four key variables: None when unset. */
  datatype Env = Env(
    openAiKey: Option<string>,
    anthropicKey: Option<string>,
    geminiKey: Option<string>,
    googleKey: Option<string>)

  predicate HasOpenAiKey(env: Env) {
    Truthy(env.openAiKey)
  }

  predicate HasAnthropicKey(env: Env) {
    Truthy(env.anthropicKey)
  }

  /** `os.getenv("GEMINI_API_KEY") or os.getenv("GOOGLE_API_KEY")` is truthy. */
  predicate HasGoogleKey(env: Env) {
    Truthy(env.geminiKey) || Truthy(env.googleKey)
  }

  /** Whether the key (or one of the keys) a provider reads is set. */
  predicate HasKeyFor(env: Env, p: Provider) {
    match p
    case OpenAi => HasOpenAiKey(env)
    case Claude => HasAnthropicKey(env)
    case Google => HasGoogleKey(env)
  }
}
