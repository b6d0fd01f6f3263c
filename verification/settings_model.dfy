/** The settings record of the settings page, its defaults, the shallow merge that
    restores persisted values at startup, and the form's `onChange` updates. All of
    these are pure functions of the current record. */
module SettingsModel {
  import opened Common

  datatype Provider = OpenAI | Anthropic | Fireworks

  /** `LLMConfig`: `model`, `temperature` and `max_tokens` are optional fields. */
  datatype LlmConfig = LlmConfig(
    provider: Provider,
    model: Option<string>,
    temperature: Option<real>,
    maxTokens: Option<int>)

  datatype Settings = Settings(llm: LlmConfig, apiUrl: string, darkMode: bool)

  /** What `JSON.parse` of the stored string gave when it succeeded: the top-level keys
      that were present, each with its value. */
  datatype PartialSettings = PartialSettings(
    llm: Option<LlmConfig>,
    apiUrl: Option<string>,
    darkMode: Option<bool>)

  /** `modelOptions`: the models the form offers for each provider, first one first. */
  function ModelOptions(p: Provider): (options: seq<string>)
    ensures |options| >= 2
  {
    match p
    case OpenAI => ["gpt-4", "gpt-4-turbo", "gpt-3.5-turbo"]
    case Anthropic => ["claude-3-opus", "claude-3-sonnet", "claude-3-haiku"]
    case Fireworks => ["mixtral-8x7b", "llama-2-70b"]
  }

  /** The model belongs to the options of the current provider. */
  predicate ModelMatchesProvider(s: Settings) {
    s.llm.model.Some? && s.llm.model.value in ModelOptions(s.llm.provider)
  }

  predicate TemperatureInRange(t: real) {
    0.0 <= t <= 1.0
  }

  predicate MaxTokensInRange(n: int) {
    100 <= n <= 8000
  }

  /** Every field the form edits holds a value the form would accept. */
  predicate WellFormed(s: Settings) {
    && ModelMatchesProvider(s)
    && s.llm.temperature.Some? && TemperatureInRange(s.llm.temperature.value)
    && s.llm.maxTokens.Some? && MaxTokensInRange(s.llm.maxTokens.value)
  }

  /** The initial state: openai / gpt-4, temperature 0.7, 2000 tokens, the environment's
      API URL (or the local fallback), dark mode off. */
  function Defaults(env: Option<string>): (s: Settings)
    ensures WellFormed(s)
    ensures s.llm.provider == OpenAI && s.llm.model == Some(ModelOptions(OpenAI)[0])
    ensures s.llm.temperature == Some(0.7) && s.llm.maxTokens == Some(2000)
    ensures s.apiUrl == DefaultApiUrl(env) && !s.darkMode
  {
    Settings(LlmConfig(OpenAI, Some("gpt-4"), Some(0.7), Some(2000)), DefaultApiUrl(env), false)
  }

  /** `{ ...prev, ...parsed }`: each top-level key present in `parsed` replaces the
      previous value whole (a stored `llm` object replaces the entire `llm` record);
      absent keys keep the previous value. */
  function Merge(prev: Settings, parsed: PartialSettings): (r: Settings)
    ensures parsed == PartialSettings(None, None, None) ==> r == prev
    ensures r.llm == parsed.llm.GetOr(prev.llm)
    ensures r.apiUrl == parsed.apiUrl.GetOr(prev.apiUrl)
    ensures r.darkMode == parsed.darkMode.GetOr(prev.darkMode)
  {
    Settings(
      if parsed.llm.Some? then parsed.llm.value else prev.llm,
      if parsed.apiUrl.Some? then parsed.apiUrl.value else prev.apiUrl,
      if parsed.darkMode.Some? then parsed.darkMode.value else prev.darkMode)
  }

  /** What `JSON.parse(JSON.stringify(s))` gives back: every key present. */
  function Serialized(s: Settings): (p: PartialSettings)
    ensures p.llm.Some? && p.apiUrl.Some? && p.darkMode.Some?
  {
    PartialSettings(Some(s.llm), Some(s.apiUrl), Some(s.darkMode))
  }

  /** A record written in full and merged back over any state is recovered exactly. */
  lemma MergeSerializedRestores(prev: Settings, s: Settings)
    ensures Merge(prev, Serialized(s)) == s
  {
  }

  /** Merging the same stored value twice is the same as merging it once. */
  lemma MergeIsIdempotent(prev: Settings, parsed: PartialSettings)
    ensures Merge(Merge(prev, parsed), parsed) == Merge(prev, parsed)
  {
  }

  /** The merge does not enforce the provider/model coupling: a stored record whose
      model belongs to another provider is taken as it is. */
  lemma MergeCanBreakModelCoupling(env: Option<string>)
    ensures !ModelMatchesProvider(
      Merge(Defaults(env), PartialSettings(Some(LlmConfig(Anthropic, Some("gpt-4"), Some(0.7), Some(2000))), None, None)))
  {
  }

  // ---------------------------------------------------------------------------
  // The form's onChange updates

  /** The API URL field. */
  function ChangeApiUrl(s: Settings, url: string): (r: Settings)
    ensures r.apiUrl == url && r.llm == s.llm && r.darkMode == s.darkMode
  {
    s.(apiUrl := url)
  }

  /** The provider select: the model is reset to the new provider's first option; the
      other LLM fields, the URL and dark mode are kept. */
  function ChangeProvider(s: Settings, p: Provider): (r: Settings)
    ensures r.llm.provider == p && r.llm.model == Some(ModelOptions(p)[0])
    ensures ModelMatchesProvider(r)
    ensures r.llm.temperature == s.llm.temperature && r.llm.maxTokens == s.llm.maxTokens
    ensures r.apiUrl == s.apiUrl && r.darkMode == s.darkMode
  {
    s.(llm := s.llm.(provider := p, model := Some(ModelOptions(p)[0])))
  }

  /** The model select: only the model changes; the provider is untouched. */
  function ChangeModel(s: Settings, m: string): (r: Settings)
    ensures r.llm.model == Some(m) && r.llm.provider == s.llm.provider
    ensures r.llm.temperature == s.llm.temperature && r.llm.maxTokens == s.llm.maxTokens
    ensures r.apiUrl == s.apiUrl && r.darkMode == s.darkMode
    ensures m in ModelOptions(s.llm.provider) ==> ModelMatchesProvider(r)
  {
    s.(llm := s.llm.(model := Some(m)))
  }

  /** The temperature slider: `parseFloat` of the input (`None` for NaN) is applied only
      when it lies in [0, 1]; otherwise the settings stay as they were. */
  function ChangeTemperature(s: Settings, parsed: Option<real>): (r: Settings)
    ensures parsed.Some? && TemperatureInRange(parsed.value) ==> r == s.(llm := s.llm.(temperature := parsed))
    ensures !(parsed.Some? && TemperatureInRange(parsed.value)) ==> r == s
    ensures r.llm.temperature != s.llm.temperature ==>
      r.llm.temperature.Some? && TemperatureInRange(r.llm.temperature.value)
  {
    if parsed.Some? && TemperatureInRange(parsed.value) then
      s.(llm := s.llm.(temperature := parsed))
    else
      s
  }

  /** The max-tokens field: `parseInt` of the input (`None` for NaN) is applied only when
      it lies in [100, 8000]; otherwise the settings stay as they were. */
  function ChangeMaxTokens(s: Settings, parsed: Option<int>): (r: Settings)
    ensures parsed.Some? && MaxTokensInRange(parsed.value) ==> r == s.(llm := s.llm.(maxTokens := parsed))
    ensures !(parsed.Some? && MaxTokensInRange(parsed.value)) ==> r == s
    ensures r.llm.maxTokens != s.llm.maxTokens ==>
      r.llm.maxTokens.Some? && MaxTokensInRange(r.llm.maxTokens.value)
  {
    if parsed.Some? && MaxTokensInRange(parsed.value) then
      s.(llm := s.llm.(maxTokens := parsed))
    else
      s
  }

  /** The dark-mode switch. */
  function ToggleDarkMode(s: Settings): (r: Settings)
    ensures r.darkMode == !s.darkMode && r.llm == s.llm && r.apiUrl == s.apiUrl
  {
    s.(darkMode := !s.darkMode)
  }

  /** One user edit of the form. */
  datatype Edit =
    | EditApiUrl(url: string)
    | SelectProvider(provider: Provider)
    | SelectModel(model: string)
    | SlideTemperature(temperature: Option<real>)
    | EnterMaxTokens(maxTokens: Option<int>)
    | FlipDarkMode

  function Apply(s: Settings, e: Edit): (r: Settings) {
    match e
    case EditApiUrl(url) => ChangeApiUrl(s, url)
    case SelectProvider(p) => ChangeProvider(s, p)
    case SelectModel(m) => ChangeModel(s, m)
    case SlideTemperature(t) => ChangeTemperature(s, t)
    case EnterMaxTokens(n) => ChangeMaxTokens(s, n)
    case FlipDarkMode => ToggleDarkMode(s)
  }

  /** An edit the form can produce: the model select lists only the current provider's
      options. */
  predicate Offered(s: Settings, e: Edit) {
    e.SelectModel? ==> e.model in ModelOptions(s.llm.provider)
  }

  /** One offered edit keeps a well-formed record well formed. */
  lemma ApplyPreservesWellFormed(s: Settings, e: Edit)
    requires WellFormed(s) && Offered(s, e)
    ensures WellFormed(Apply(s, e))
  {
  }

  /** Every sequence of edits the form offers, starting from the defaults or any other
      well-formed record, keeps the record well formed. */
  lemma {:induction false} EditsPreserveWellFormed(s: Settings, edits: seq<Edit>)
    requires WellFormed(s)
    requires forall k :: 0 <= k < |edits| ==> Offered(ApplyAll(s, edits[..k]), edits[k])
    ensures WellFormed(ApplyAll(s, edits))
  {
    if edits != [] {
      var n := |edits| - 1;
      assert edits[..n][..n] == edits[..n];
      forall k | 0 <= k < n ensures Offered(ApplyAll(s, edits[..n][..k]), edits[..n][k]) {
        assert edits[..n][..k] == edits[..k];
      }
      EditsPreserveWellFormed(s, edits[..n]);
      ApplyPreservesWellFormed(ApplyAll(s, edits[..n]), edits[n]);
    }
  }

  /** The record after a sequence of edits, in order. */
  function ApplyAll(s: Settings, edits: seq<Edit>): Settings
    decreases |edits|
  {
    if edits == [] then s else Apply(ApplyAll(s, edits[..|edits| - 1]), edits[|edits| - 1])
  }

  /** Flipping the switch twice restores the record. */
  lemma ToggleTwiceRestores(s: Settings)
    ensures ToggleDarkMode(ToggleDarkMode(s)) == s
  {
  }

  /** A rejected number leaves the stored value as it was, e.g. 50 tokens or a
      temperature of 1.5. */
  lemma OutOfRangeInputsAreIgnored(s: Settings)
    ensures ChangeMaxTokens(s, Some(50)) == s
    ensures ChangeTemperature(s, Some(1.5)) == s
    ensures ChangeMaxTokens(s, None) == s && ChangeTemperature(s, None) == s
  {
  }

  /** Choosing Anthropic selects Claude 3 Opus. */
  lemma AnthropicSelectsOpus(s: Settings)
    ensures ChangeProvider(s, Anthropic).llm.model == Some("claude-3-opus")
  {
  }
}
