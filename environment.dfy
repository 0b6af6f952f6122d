/**
  The provider configuration both AI routes read from the process environment
  (`AI_PROVIDER`, `AI_API_KEY`), passed in as a value.
 */
module Environment {
  import opened Wrappers
  import opened AIProviders

  /** An unset variable is `None`. */
  datatype Env = Env(aiProvider: Option<string>, aiApiKey: Option<string>)

  /** `process.env.AI_PROVIDER || "gemini"`: an unset or empty variable means Gemini. */
  function ProviderName(env: Env): (name: string)
    ensures name != ""
    ensures env.aiProvider.Some? && env.aiProvider.value != "" ==> name == env.aiProvider.value
    ensures env.aiProvider.None? || env.aiProvider.value == "" ==> name == "gemini"
  {
    match env.aiProvider
    case Some(p) => if p != "" then p else "gemini"
    case None => "gemini"
  }

  /**
    `getAIProvider()`: without a (non-empty) key it throws before any provider is
    built; with one, it constructs the service for the configured provider.
   */
  function GetAIProvider(env: Env): (r: Result<AIService, string>)
    ensures (env.aiApiKey.None? || env.aiApiKey.value == "") ==>
      r == Err("API key required for " + ProviderName(env) + " provider")
    ensures r.Ok? ==> env.aiApiKey.Some? && r.value.provider.apiKey == env.aiApiKey.value
    ensures env.aiApiKey.Some? && env.aiApiKey.value != "" ==> r == NewAIService(ProviderName(env), env.aiApiKey)
  {
    match env.aiApiKey
    case Some(key) =>
      if key != "" then NewAIService(ProviderName(env), env.aiApiKey)
      else Err("API key required for " + ProviderName(env) + " provider")
    case None => Err("API key required for " + ProviderName(env) + " provider")
  }

  /** With a key and no provider configured, the routes always get a Gemini service with that key. */
  lemma DefaultEnvironmentGivesGemini(key: string)
    requires key != ""
    ensures GetAIProvider(Env(None, Some(key))) == Ok(AIService(GeminiProvider(key)))
  {
    assert Strings.ToLower("gemini") == "gemini";
  }
}
