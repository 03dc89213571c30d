/** Shared data types of the evaluation matrix (types.ts), as values. */
module Types {

  datatype Option<+T> = None | Some(value: T)

  /** The outcome of an operation that can be refused with a message. */
  datatype Result<+T> = Ok(value: T) | Err(message: string)

  /** The metric kinds a run can score (types.ts:26-35). */
  datatype MetricType =
    | ExactMatch | JsonValidity | ContainsKeyword | LlmJudge
    | Length | Bleu | Rouge | Custom

  /** A score is `number | boolean`. Numbers are exact reals here. */
  datatype Score = Num(n: real) | Flag(b: bool)

  datatype Provider = OpenAI | OpenRouter | CustomProvider

  /** The wire name of a provider, as the UI and the presets spell it. */
  function ProviderName(p: Provider): string
  {
    match p
    case OpenAI => "openai"
    case OpenRouter => "openrouter"
    case CustomProvider => "custom"
  }

  /** A model endpoint; `maxConcurrency` is optional (types.ts:2-10). */
  datatype LLMModel = LLMModel(
    id: string, name: string, provider: Provider, baseUrl: string,
    apiKey: string, modelId: string, maxConcurrency: Option<int>)

  /** JSON values, as produced by a JSON parser. */
  datatype Json =
    | JNull | JBool(b: bool) | JNum(n: real) | JStr(s: string)
    | JArr(elems: seq<Json>) | JObj(fields: map<string, Json>)

  /** A dataset item's input is a string or a structured object (types.ts:12-17). */
  datatype ItemInput = StringInput(text: string) | ObjectInput(value: Json)

  datatype DatasetItem = DatasetItem(id: string, input: ItemInput, reference: Option<string>)

  datatype Dataset = Dataset(id: string, name: string, createdAt: string, items: seq<DatasetItem>)

  /** The configuration snapshot copied into a run (types.ts:37-46). */
  datatype EvaluationConfig = EvaluationConfig(
    id: string, name: string, datasetId: string, modelIds: seq<string>,
    metrics: seq<MetricType>, systemPrompt: string, judgeModelId: string,
    customMetricCode: string)

  /** One scored (item, model) pair (types.ts:48-56). */
  datatype EvaluationResultItem = EvaluationResultItem(
    itemId: string, modelId: string, input: string, output: string,
    reference: Option<string>, scores: map<MetricType, Score>, latencyMs: real)

  datatype RunStatus = Running | Completed | Failed

  /** The externally visible record of one evaluation (types.ts:58-67). */
  datatype EvaluationRun = EvaluationRun(
    id: string, configId: string, configSnapshot: EvaluationConfig,
    timestamp: string, status: RunStatus, progress: int, total: int,
    results: seq<EvaluationResultItem>)

  /** `list.find(x => x.id === id)` over models: the first model with that id. */
  function FindModel(models: seq<LLMModel>, id: string): (r: Option<LLMModel>)
    ensures r.Some? ==> r.value in models && r.value.id == id
    ensures r.None? <==> forall m :: m in models ==> m.id != id
  {
    if |models| == 0 then None
    else if models[0].id == id then Some(models[0])
    else FindModel(models[1..], id)
  }

  /** `datasets.find(d => d.id === id)`. */
  function FindDataset(datasets: seq<Dataset>, id: string): (r: Option<Dataset>)
    ensures r.Some? ==> r.value in datasets && r.value.id == id
    ensures r.None? <==> forall d :: d in datasets ==> d.id != id
  {
    if |datasets| == 0 then None
    else if datasets[0].id == id then Some(datasets[0])
    else FindDataset(datasets[1..], id)
  }
}
