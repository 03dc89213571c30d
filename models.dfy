/**
  The model form of pages/Models.tsx: the add handler's validation and
  defaulting, the form reset after an add, the provider preset switch and the
  guard in front of fetching the provider's model list. The form is the
  `Partial<LLMModel>` state; its provider is always set, by the initial state
  and by the preset switch.
*/
module ModelForm {

  import opened Types
  import opened Text

  /** The form state; an absent field is `None`. */
  datatype Form = Form(
    name: Option<string>, provider: Provider, baseUrl: Option<string>,
    apiKey: Option<string>, modelId: Option<string>)

  /** One entry of `PRESETS_MODELS` (constants.ts). */
  datatype Preset = Preset(name: string, baseUrl: string, provider: Provider)

  const PRESETS: seq<Preset> := [
    Preset("OpenRouter (Free)", "https://openrouter.ai/api/v1", OpenRouter),
    Preset("OpenAI", "https://api.openai.com/v1", OpenAI),
    Preset("Local LiteLLM", "http://localhost:4000", CustomProvider)
  ]

  /** The form before any input: the OpenRouter provider and the first preset's URL. */
  const InitialForm := Form(None, OpenRouter, Some(PRESETS[0].baseUrl), None, None)

  /** A string field is truthy when it is present and not empty. */
  predicate Filled(v: Option<string>)
  {
    v.Some? && v.value != ""
  }

  /** `newModel.name?.trim() || newModel.modelId`. */
  function DisplayName(form: Form): (r: Option<string>)
    ensures form.name.Some? && Trim(form.name.value) != "" ==> r == Some(Trim(form.name.value))
    ensures !(form.name.Some? && Trim(form.name.value) != "") ==> r == form.modelId
  {
    if form.name.Some? && Trim(form.name.value) != "" then Some(Trim(form.name.value)) else form.modelId
  }

  datatype AddOutcome = Added(model: LLMModel, next: Form) | Invalid

  /**
    `handleAddModel`: refused unless the display name, the API key, the model id
    and the base URL are all filled; otherwise a model with the fresh id and no
    concurrency limit, and a form whose name and model id are cleared.
  */
  function HandleAddModel(form: Form, freshId: string): (r: AddOutcome)
    ensures r.Invalid? <==>
              !Filled(DisplayName(form)) || !Filled(form.apiKey) || !Filled(form.modelId) || !Filled(form.baseUrl)
    ensures r.Added? ==>
              r.model == LLMModel(freshId, DisplayName(form).value, form.provider, form.baseUrl.value,
                                  form.apiKey.value, form.modelId.value, None)
    ensures r.Added? ==> r.next == form.(name := Some(""), modelId := Some(""))
  {
    var display := DisplayName(form);
    if !Filled(display) || !Filled(form.apiKey) || !Filled(form.modelId) || !Filled(form.baseUrl) then Invalid
    else
      Added(LLMModel(freshId, display.value, form.provider, form.baseUrl.value,
                     form.apiKey.value, form.modelId.value, None),
            form.(name := Some(""), modelId := Some("")))
  }

  /** The added model's name is the name typed, trimmed, or else the model id. */
  lemma AddedName(form: Form, freshId: string)
    requires HandleAddModel(form, freshId).Added?
    ensures var m := HandleAddModel(form, freshId).model;
            m.name != "" &&
            (if form.name.Some? && Trim(form.name.value) != "" then m.name == Trim(form.name.value)
             else m.name == m.modelId)
  {
  }

  /** A name taken from the form carries no surrounding whitespace. */
  lemma AddedNameTrimmed(form: Form, freshId: string)
    requires HandleAddModel(form, freshId).Added?
    requires form.name.Some? && Trim(form.name.value) != ""
    ensures Trim(HandleAddModel(form, freshId).model.name) == HandleAddModel(form, freshId).model.name
  {
    TrimIdempotent(form.name.value);
  }

  /** The cleared form is refused until a model id is entered again. */
  lemma AddTwiceRefused(form: Form, id1: string, id2: string)
    requires HandleAddModel(form, id1).Added?
    ensures HandleAddModel(HandleAddModel(form, id1).next, id2).Invalid?
  {
  }

  /** The cleared form keeps the provider, URL and key, so the next add needs only a model id. */
  lemma AddAgain(form: Form, id1: string, id2: string, modelId: string)
    requires HandleAddModel(form, id1).Added?
    requires modelId != ""
    ensures var next := HandleAddModel(form, id1).next.(modelId := Some(modelId));
            HandleAddModel(next, id2) == Added(
              LLMModel(id2, modelId, form.provider, form.baseUrl.value, form.apiKey.value, modelId, None),
              next.(name := Some(""), modelId := Some("")))
  {
    var next := HandleAddModel(form, id1).next.(modelId := Some(modelId));
    assert next.name == Some("");
    TrimEmptyIff("");
  }

  /** `fetchModels`' guard: a base URL and an API key are needed. */
  predicate CanFetchModels(form: Form)
  {
    Filled(form.baseUrl) && Filled(form.apiKey)
  }

  /** Whatever can be added could have had its model list fetched. */
  lemma AddedCanFetch(form: Form, freshId: string)
    requires HandleAddModel(form, freshId).Added?
    ensures CanFetchModels(form)
  {
  }

  /** `PRESETS_MODELS.find(p => p.provider === provider)`. */
  function FindPreset(presets: seq<Preset>, value: string): (r: Option<Preset>)
    ensures r.Some? ==> r.value in presets && ProviderName(r.value.provider) == value
    ensures r.None? <==> forall p :: p in presets ==> ProviderName(p.provider) != value
  {
    if |presets| == 0 then None
    else if ProviderName(presets[0].provider) == value then Some(presets[0])
    else FindPreset(presets[1..], value)
  }

  /** `handlePresetChange`: a known provider sets provider and base URL; anything else changes nothing. */
  function HandlePresetChange(form: Form, value: string): (r: Form)
    ensures FindPreset(PRESETS, value).None? ==> r == form
    ensures FindPreset(PRESETS, value).Some? ==>
              r == form.(provider := FindPreset(PRESETS, value).value.provider,
                         baseUrl := Some(FindPreset(PRESETS, value).value.baseUrl))
  {
    match FindPreset(PRESETS, value)
    case None => form
    case Some(p) => form.(provider := p.provider, baseUrl := Some(p.baseUrl))
  }

  /** Choosing a provider's wire name selects that provider and its preset URL, and keeps the rest. */
  lemma PresetChangeSelects(form: Form, p: Provider)
    ensures HandlePresetChange(form, ProviderName(p)).provider == p
    ensures HandlePresetChange(form, ProviderName(p)).name == form.name
    ensures HandlePresetChange(form, ProviderName(p)).apiKey == form.apiKey
    ensures HandlePresetChange(form, ProviderName(p)).modelId == form.modelId
    ensures p == OpenAI ==> HandlePresetChange(form, ProviderName(p)).baseUrl == Some("https://api.openai.com/v1")
    ensures p == OpenRouter ==> HandlePresetChange(form, ProviderName(p)).baseUrl == Some("https://openrouter.ai/api/v1")
    ensures p == CustomProvider ==> HandlePresetChange(form, ProviderName(p)).baseUrl == Some("http://localhost:4000")
  {
    assert PRESETS[0].provider == OpenRouter && PRESETS[1].provider == OpenAI && PRESETS[2].provider == CustomProvider;
  }

  /** Switching to the same preset twice is the same as once. */
  lemma PresetChangeIdempotent(form: Form, value: string)
    ensures HandlePresetChange(HandlePresetChange(form, value), value) == HandlePresetChange(form, value)
  {
  }
}
