/** config/settings.py: what a run is configured with. */
module Configuration {
  import opened Wrappers


  /** config/settings.py: the two API keys have no default. */
  datatype Settings = Settings(
    openaiKey: string,
    tavilyKey: string,
    model: string,
    maxOutputTokens: int,
    maxRetries: int,
    maxParallel: int,
    maxResults: int,
    tracking: bool)

  function DefaultSettings(openaiKey: string, tavilyKey: string): (s: Settings)
    ensures s.openaiKey == openaiKey && s.tavilyKey == tavilyKey
    ensures s.model == "gpt-4o" && s.maxOutputTokens == 2000 && s.maxRetries == 2
    ensures s.maxParallel == 3 && s.maxResults == 5 && s.tracking
  {
    Settings(openaiKey, tavilyKey, "gpt-4o", 2000, 2, 3, 5, true)
  }

  /** `if model_override:` — a missing or empty override is falsy. */
  function Configured(s: Settings, modelOverride: Option<string>): (r: Settings)
    ensures modelOverride.Some? && modelOverride.value != "" ==> r.model == modelOverride.value
    ensures modelOverride.None? || modelOverride.value == "" ==> r.model == s.model
    ensures r.(model := s.model) == s
  {
    match modelOverride
    case Some(m) => if m != "" then s.(model := m) else s
    case None => s
  }
}
