/** The display names the client shows for model identifiers. */
module ModelDisplay {
  const ModelDisplayNames: map<string, string> := map[
    "gpt-5.2" := "GPT-5.2",
    "gpt-5.2-pro" := "GPT-5.2 Pro",
    "gemini-3-pro-preview" := "Gemini 3 Pro",
    "gemini-3-flash-preview" := "Gemini 3 Flash",
    "claude-opus-4-5" := "Claude 4.5 Opus",
    "claude-sonnet-4-5" := "Claude 4.5 Sonnet",
    "claude-haiku-4-5" := "Claude 4.5 Haiku"
  ]

  /** `MODEL_DISPLAY_NAMES[modelId] ?? modelId`. */
  function GetModelDisplayName(modelId: string): (name: string)
    ensures modelId in ModelDisplayNames ==> name == ModelDisplayNames[modelId]
    ensures modelId !in ModelDisplayNames ==> name == modelId
  {
    if modelId in ModelDisplayNames then ModelDisplayNames[modelId] else modelId
  }

  /** A name differs from its id exactly for the ids in the table (no entry maps an id to itself). */
  lemma DisplayNameFallsBackToId(modelId: string)
    ensures GetModelDisplayName(modelId) == modelId <==> modelId !in ModelDisplayNames
  {
  }

  lemma GeminiProDisplayName()
    ensures GetModelDisplayName("gemini-3-pro-preview") == "Gemini 3 Pro"
  {
  }
}
