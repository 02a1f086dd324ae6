/** The configuration dialog: it edits a working copy of the configuration
    one field at a time and hands it back on save. */
module ApiConfigModal {
  import opened Types
  import ApiConfigService

  /** The two providers the dialog's selector offers. */
  predicate IsProvider(p: string)
  {
    p == GeminiProvider || p == OpenAIProvider
  }

  /** The `MODELS` table: each provider's models, its default first. */
  function Models(provider: string): (models: seq<string>)
    requires IsProvider(provider)
    ensures |models| > 0
  {
    if provider == GeminiProvider then ["gemini-2.5-flash", "gemini-2.5-pro"]
    else ["gpt-4o", "gpt-4-turbo", "gpt-3.5-turbo"]
  }

  /** The configuration names a known provider and one of its models. */
  predicate ModelFits(c: ApiConfig)
  {
    IsProvider(c.provider) && c.model in Models(c.provider)
  }

  /** A provider change: the provider is replaced and the model resets to
      that provider's first model; the keys are kept. */
  function WithProvider(c: ApiConfig, provider: string): (r: ApiConfig)
    requires IsProvider(provider)
    ensures r.provider == provider && r.model == Models(provider)[0]
    ensures ModelFits(r)
    ensures r.geminiKey == c.geminiKey && r.openAIKey == c.openAIKey
    ensures r.youtubeKey == c.youtubeKey && r.youtubeTranscriptKey == c.youtubeTranscriptKey
  {
    c.(provider := provider, model := Models(provider)[0])
  }

  /** The fields `{...prev, [name]: value}` can set. */
  datatype Field =
    | ProviderField
    | ModelField
    | GeminiKeyField
    | OpenAIKeyField
    | YoutubeKeyField
    | YoutubeTranscriptKeyField

  function Get(c: ApiConfig, f: Field): string
  {
    match f
    case ProviderField => c.provider
    case ModelField => c.model
    case GeminiKeyField => c.geminiKey
    case OpenAIKeyField => c.openAIKey
    case YoutubeKeyField => c.youtubeKey
    case YoutubeTranscriptKeyField => c.youtubeTranscriptKey
  }

  /** `{ ...prev, [name]: value }`: the named field takes the value and
      every other field stays as it was. */
  function WithField(c: ApiConfig, f: Field, value: string): (r: ApiConfig)
    ensures Get(r, f) == value
    ensures forall g: Field :: g != f ==> Get(r, g) == Get(c, g)
  {
    match f
    case ProviderField => c.(provider := value)
    case ModelField => c.(model := value)
    case GeminiKeyField => c.(geminiKey := value)
    case OpenAIKeyField => c.(openAIKey := value)
    case YoutubeKeyField => c.(youtubeKey := value)
    case YoutubeTranscriptKeyField => c.(youtubeTranscriptKey := value)
  }

  /** A configuration is determined by its six fields. */
  lemma FieldsDetermineConfig(a: ApiConfig, b: ApiConfig)
    requires forall f: Field :: Get(a, f) == Get(b, f)
    ensures a == b
  {
    assert Get(a, ProviderField) == Get(b, ProviderField);
    assert Get(a, ModelField) == Get(b, ModelField);
    assert Get(a, GeminiKeyField) == Get(b, GeminiKeyField);
    assert Get(a, OpenAIKeyField) == Get(b, OpenAIKeyField);
    assert Get(a, YoutubeKeyField) == Get(b, YoutubeKeyField);
    assert Get(a, YoutubeTranscriptKeyField) == Get(b, YoutubeTranscriptKeyField);
  }

  /** The default record, and the fallbacks of an empty hosted row, name a
      known provider and one of its models, so the dialog opens on a valid
      selection. */
  lemma DefaultsFit()
    ensures ModelFits(ApiConfigService.DefaultConfig)
    ensures ModelFits(ApiConfigService.RowToConfig(ApiConfigService.ConfigRow(None, None, None, None, None, None)))
  {
  }

  /** `WithField`'s two postconditions pin its result down: any record that
      has the value in the named field and the old values elsewhere is it. */
  lemma WithFieldDetermined(c: ApiConfig, f: Field, value: string, r: ApiConfig)
    requires Get(r, f) == value
    requires forall g: Field :: g != f ==> Get(r, g) == Get(c, g)
    ensures r == WithField(c, f, value)
  {
    FieldsDetermineConfig(r, WithField(c, f, value));
  }

  /** Choosing the same provider twice is the same as choosing it once. */
  lemma WithProviderIdempotent(c: ApiConfig, provider: string)
    requires IsProvider(provider)
    ensures WithProvider(WithProvider(c, provider), provider) == WithProvider(c, provider)
  {
  }

  /** Switching to OpenAI picks `gpt-4o`, whatever Gemini model was chosen,
      and switching back picks `gemini-2.5-flash`. */
  lemma ProviderSwitchExamples(c: ApiConfig)
    ensures WithProvider(c, OpenAIProvider).model == "gpt-4o"
    ensures WithProvider(c, GeminiProvider).model == "gemini-2.5-flash"
  {
  }

  /** The model selector offers only the current provider's models, so
      edits made through the dialog's inputs keep the model among them. */
  lemma EditKeepsModelFit(c: ApiConfig, f: Field, value: string)
    requires ModelFits(c)
    requires f != ProviderField
    requires f == ModelField ==> value in Models(c.provider)
    ensures ModelFits(WithField(c, f, value))
  {
    assert Get(WithField(c, f, value), ProviderField) == c.provider;
  }

  /** The dialog's working copy of the configuration. */
  class ConfigModal {
    var currentConfig: ApiConfig

    constructor (config: ApiConfig)
      ensures currentConfig == config
    {
      currentConfig := config;
    }

    /** The options of the model selector. */
    function ModelOptions(): (options: seq<string>)
      reads this
      requires IsProvider(currentConfig.provider)
      ensures |options| > 0
      ensures ModelFits(currentConfig) <==> currentConfig.model in options
    {
      Models(currentConfig.provider)
    }

    /** `handleProviderChange`. */
    method HandleProviderChange(provider: string)
      requires IsProvider(provider)
      modifies this
      ensures currentConfig == WithProvider(old(currentConfig), provider)
      ensures ModelFits(currentConfig) && currentConfig.model == Models(provider)[0]
    {
      currentConfig := currentConfig.(provider := provider, model := Models(provider)[0]);
    }

    /** `handleChange`. */
    method HandleChange(name: Field, value: string)
      modifies this
      ensures currentConfig == WithField(old(currentConfig), name, value)
      ensures Get(currentConfig, name) == value
      ensures forall g: Field :: g != name ==> Get(currentConfig, g) == Get(old(currentConfig), g)
    {
      currentConfig := WithField(currentConfig, name, value);
    }

    /** `handleSave`: the working copy is passed on as it is. */
    method HandleSave() returns (saved: ApiConfig)
      ensures saved == currentConfig
    {
      saved := currentConfig;
    }
  }
}
