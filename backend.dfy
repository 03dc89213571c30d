/**
  The run and dataset bookkeeping of the backend service (backend/main_db.py):
  run creation with its defaults, the field-wise partial update of a run, the
  counter, progress and completion transition when a result is posted, the
  line handling of a dataset upload, and the duplicate check on model creation.

  Tables are maps and sequences of row records held by one `Database` object;
  a request that fails commits nothing. JSON decoding, Python's `str` of a
  dictionary, ISO timestamp parsing and the clock are parameters.
*/
module Backend {

  import opened Types
  import opened Text

  /** A point in time, as a parsed timestamp or the clock gives it. */
  datatype Instant = Instant(iso: string)

  /** The calls into the Python runtime: `json.loads`, `str(dict)`, `datetime.fromisoformat`. */
  datatype Runtime = Runtime(
    loads: string -> Option<Json>,
    showDict: map<string, Json> -> string,
    fromIso: string -> Option<Instant>)

  /** A row of `evaluation_runs`; the snapshot is the posted configuration. */
  datatype RunRow = RunRow(
    id: string, name: string, datasetId: string, modelIds: seq<string>, status: string,
    progress: real, totalItems: int, completedItems: int, failedItems: int,
    configSnapshot: RunConfig, createdAt: Instant,
    startedAt: Option<Instant>, completedAt: Option<Instant>)

  /** The posted run configuration; a key that is absent is `None`. */
  datatype RunConfig = RunConfig(name: Option<string>, datasetId: Option<string>, modelIds: Option<seq<string>>)

  datatype DatasetRow = DatasetRow(id: string, name: string, description: string, fileName: string,
                                   fileSize: nat, itemCount: nat)

  datatype ItemRow = ItemRow(id: string, datasetId: string, inputText: string, referenceOutput: Option<string>)

  datatype ModelRow = ModelRow(id: string, name: string, provider: string, baseUrl: string,
                               apiKey: string, modelId: string, config: Option<string>)

  datatype ResultRow = ResultRow(
    id: string, runId: string, datasetItemId: string, modelId: string, inputText: string,
    expected: Option<string>, actual: Option<string>, metrics: Option<string>, status: string,
    error: Option<string>, processingTimeMs: Option<int>)

  // ----- Runs -----

  /** `s[:n]`. */
  function Prefix(s: string, n: nat): (r: string)
    ensures |r| <= n && |r| <= |s| && r == s[..|r|]
    ensures |s| >= n ==> |r| == n
  {
    if |s| <= n then s else s[..n]
  }

  /** `create_run`'s row: pending, nothing counted, and the dataset's item count as the total (0 without one). */
  function NewRunRow(config: RunConfig, runId: string, dataset: Option<DatasetRow>, now: Instant): (r: RunRow)
    ensures r.id == runId && r.status == "pending" && r.progress == 0.0
    ensures r.completedItems == 0 && r.failedItems == 0
    ensures r.totalItems == (if dataset.Some? then dataset.value.itemCount else 0)
    ensures r.name == (if config.name.Some? then config.name.value else "Evaluation Run " + Prefix(runId, 8))
    ensures r.datasetId == (if config.datasetId.Some? then config.datasetId.value else "")
    ensures r.modelIds == (if config.modelIds.Some? then config.modelIds.value else [])
    ensures r.configSnapshot == config && r.createdAt == now
    ensures r.startedAt.None? && r.completedAt.None?
  {
    RunRow(runId,
           if config.name.Some? then config.name.value else "Evaluation Run " + Prefix(runId, 8),
           if config.datasetId.Some? then config.datasetId.value else "",
           if config.modelIds.Some? then config.modelIds.value else [],
           "pending", 0.0,
           if dataset.Some? then dataset.value.itemCount else 0,
           0, 0, config, now, None, None)
  }

  /** The fields `update_run` reads from its body; a key that is absent is `None`. */
  datatype RunUpdates = RunUpdates(
    status: Option<string>, progress: Option<real>, completed: Option<int>, failed: Option<int>,
    startedAt: Option<string>, completedAt: Option<string>)

  /** `value.replace('Z', '+00:00')` and then `datetime.fromisoformat`. */
  function ParseTimestamp(rt: Runtime, value: string): Option<Instant>
  {
    rt.fromIso(ReplaceAllChar(value, 'Z', "+00:00"))
  }

  function Pick<T>(update: Option<T>, current: T): T
  {
    match update
    case Some(v) => v
    case None => current
  }

  /**
    The assignments of `update_run`: each listed field that is present takes
    its value; a timestamp that does not parse raises, and then nothing is
    committed.
  */
  function ApplyUpdates(row: RunRow, u: RunUpdates, rt: Runtime): (r: Result<RunRow>)
    ensures r.Err? <==> (u.startedAt.Some? && ParseTimestamp(rt, u.startedAt.value).None?) ||
                        (u.completedAt.Some? && ParseTimestamp(rt, u.completedAt.value).None?)
    ensures r.Ok? ==> r.value.status == Pick(u.status, row.status)
    ensures r.Ok? ==> r.value.progress == Pick(u.progress, row.progress)
    ensures r.Ok? ==> r.value.completedItems == Pick(u.completed, row.completedItems)
    ensures r.Ok? ==> r.value.failedItems == Pick(u.failed, row.failedItems)
    ensures r.Ok? && u.startedAt.Some? ==> r.value.startedAt == ParseTimestamp(rt, u.startedAt.value)
    ensures r.Ok? && u.startedAt.None? ==> r.value.startedAt == row.startedAt
    ensures r.Ok? && u.completedAt.Some? ==> r.value.completedAt == ParseTimestamp(rt, u.completedAt.value)
    ensures r.Ok? && u.completedAt.None? ==> r.value.completedAt == row.completedAt
  {
    var started := if u.startedAt.Some? then ParseTimestamp(rt, u.startedAt.value) else row.startedAt;
    var completed := if u.completedAt.Some? then ParseTimestamp(rt, u.completedAt.value) else row.completedAt;
    if (u.startedAt.Some? && started.None?) || (u.completedAt.Some? && completed.None?) then
      Err("Invalid isoformat string")
    else
      Ok(row.(status := Pick(u.status, row.status), progress := Pick(u.progress, row.progress),
              completedItems := Pick(u.completed, row.completedItems),
              failedItems := Pick(u.failed, row.failedItems),
              startedAt := started, completedAt := completed))
  }

  /** An update never touches the total, the identity, the configuration or the creation time. */
  lemma UpdateKeepsTheRest(row: RunRow, u: RunUpdates, rt: Runtime)
    requires ApplyUpdates(row, u, rt).Ok?
    ensures var r := ApplyUpdates(row, u, rt).value;
            r.totalItems == row.totalItems && r.id == row.id && r.name == row.name &&
            r.datasetId == row.datasetId && r.modelIds == row.modelIds &&
            r.configSnapshot == row.configSnapshot && r.createdAt == row.createdAt
  {
  }

  const NoUpdates := RunUpdates(None, None, None, None, None, None)

  lemma EmptyUpdate(row: RunRow, rt: Runtime)
    ensures ApplyUpdates(row, NoUpdates, rt) == Ok(row)
  {
  }

  /** The same update applied twice is applied once. */
  lemma UpdateIdempotent(row: RunRow, u: RunUpdates, rt: Runtime)
    requires ApplyUpdates(row, u, rt).Ok?
    ensures ApplyUpdates(ApplyUpdates(row, u, rt).value, u, rt) == ApplyUpdates(row, u, rt)
  {
  }

  /** `max(a, b)`. */
  function MaxInt(a: int, b: int): int
  {
    if a >= b then a else b
  }

  /**
    The statistics step of `create_run_result`: one more completed item, the
    progress as completed over the total (at least 1), and completion, with the
    current time, once the count reaches the total.
  */
  function AfterResult(row: RunRow, now: Instant): (r: RunRow)
    ensures r.completedItems == row.completedItems + 1
    ensures r.progress == r.completedItems as real / MaxInt(row.totalItems, 1) as real
    ensures r.completedItems >= row.totalItems ==> r.status == "completed" && r.completedAt == Some(now)
    ensures r.completedItems < row.totalItems ==> r.status == row.status && r.completedAt == row.completedAt
    ensures r.totalItems == row.totalItems && r.failedItems == row.failedItems && r.id == row.id
    ensures r.startedAt == row.startedAt && r.configSnapshot == row.configSnapshot
  {
    var completed := row.completedItems + 1;
    var progressed := row.(completedItems := completed,
                           progress := completed as real / MaxInt(row.totalItems, 1) as real);
    if completed >= row.totalItems then progressed.(status := "completed", completedAt := Some(now))
    else progressed
  }

  /** `n` results posted one after the other, all at time `now`. */
  function AfterResults(row: RunRow, n: nat, now: Instant): RunRow
  {
    if n == 0 then row else AfterResult(AfterResults(row, n - 1, now), now)
  }

  /**
    From a new run, `n` results leave `n` completed items and a progress of
    `n / max(total, 1)`; the run is completed exactly when `n` reached the
    total, which for a total of 0 is the first result, and the total never moves.
  */
  lemma {:induction false} ResultsCount(row: RunRow, n: nat, now: Instant)
    requires row.completedItems == 0 && row.status == "pending"
    ensures AfterResults(row, n, now).completedItems == n
    ensures AfterResults(row, n, now).totalItems == row.totalItems
    ensures n > 0 ==> AfterResults(row, n, now).progress == n as real / MaxInt(row.totalItems, 1) as real
    ensures AfterResults(row, n, now).status == "completed" <==> n > 0 && n >= row.totalItems
    ensures AfterResults(row, n, now).status != "completed" ==> AfterResults(row, n, now).status == "pending"
  {
    if n > 0 {
      ResultsCount(row, n - 1, now);
    }
  }

  /** The progress stays in [0, 1] while the count has not passed the total. */
  lemma ProgressBounded(row: RunRow, now: Instant)
    requires 0 <= row.completedItems < row.totalItems
    ensures 0.0 < AfterResult(row, now).progress <= 1.0
  {
    var c := row.completedItems + 1;
    assert c as real <= row.totalItems as real;
  }

  /** The fields of a posted result that `create_run_result` reads; an absent key is `None`. */
  datatype ResultPayload = ResultPayload(
    datasetItemId: Option<string>, modelId: Option<string>, input: Option<string>,
    expected: Option<string>, actual: Option<string>, metrics: Option<Json>,
    status: Option<string>, error: Option<string>, processingTimeMs: Option<int>)

  /** Python truthiness of a JSON value. */
  predicate PyTruthy(j: Json)
  {
    match j
    case JNull => false
    case JBool(b) => b
    case JNum(n) => n != 0.0
    case JStr(s) => s != ""
    case JArr(elems) => elems != []
    case JObj(fields) => fields != map[]
  }

  /** The stored result row; the metrics are serialised only when truthy. */
  function NewResultRow(id: string, runId: string, p: ResultPayload, dumps: Json -> string): (r: ResultRow)
    ensures r.runId == runId && r.id == id
    ensures r.status == (if p.status.Some? then p.status.value else "pending")
    ensures r.metrics.Some? <==> p.metrics.Some? && PyTruthy(p.metrics.value)
  {
    ResultRow(id, runId, Pick(p.datasetItemId, ""), Pick(p.modelId, ""), Pick(p.input, ""),
              p.expected, p.actual,
              if p.metrics.Some? && PyTruthy(p.metrics.value) then Some(dumps(p.metrics.value)) else None,
              Pick(p.status, "pending"), p.error, p.processingTimeMs)
  }

  // ----- Dataset upload -----

  /** What one decoded line yields: nothing (not JSON), an item, or an error that fails the upload. */
  datatype LineOutcome = NotJson | Item(input: ItemInput, reference: Option<string>) | Invalid(message: string)

  /** `d.get(key, default)`: the default only when the key is absent. */
  function GetOr(fields: map<string, Json>, key: string, default: Json): Json
  {
    if key in fields then fields[key] else default
  }

  /**
    One line of `create_dataset`: a line that is not JSON is skipped; a value
    that is not an object has no `get`, and an input that is not a string or an
    object, or a reference that is neither null nor a string, fails validation;
    either raises and fails the whole upload.
  */
  function ParseLine(line: string, rt: Runtime): (r: LineOutcome)
    ensures rt.loads(line).None? <==> r.NotJson?
    ensures r.Item? ==> rt.loads(line).value.JObj?
  {
    match rt.loads(line)
    case None => NotJson
    case Some(data) =>
      if !data.JObj? then Invalid("object has no attribute 'get'")
      else
        var input := GetOr(data.fields, "input", GetOr(data.fields, "prompt", JStr("")));
        var reference := GetOr(data.fields, "reference", GetOr(data.fields, "output", JNull));
        if !(input.JStr? || input.JObj?) then Invalid("input should be a string or a dictionary")
        else if !(reference.JNull? || reference.JStr?) then Invalid("reference should be a string")
        else Item(if input.JStr? then StringInput(input.s) else ObjectInput(input),
                  if reference.JStr? then Some(reference.s) else None)
  }

  /** An object with neither `input` nor `prompt` gets the empty input; without `reference` the `output` is used. */
  lemma ParseLineDefaults(line: string, rt: Runtime)
    requires rt.loads(line).Some? && rt.loads(line).value.JObj?
    requires "input" !in rt.loads(line).value.fields && "prompt" !in rt.loads(line).value.fields
    requires "reference" !in rt.loads(line).value.fields
    requires "output" in rt.loads(line).value.fields && rt.loads(line).value.fields["output"].JStr?
    ensures ParseLine(line, rt) == Item(StringInput(""), Some(rt.loads(line).value.fields["output"].s))
  {
  }

  /** A kept item with its fresh id. */
  datatype ParsedItem = ParsedItem(id: string, input: ItemInput, reference: Option<string>)

  /** The items of the lines, in order, the k-th kept one with id `freshId(k)`; the first invalid line fails all. */
  function ItemsOf(lines: seq<string>, rt: Runtime, freshId: nat -> string): (r: Result<seq<ParsedItem>>)
    ensures r.Ok? ==> |r.value| <= |lines|
  {
    if |lines| == 0 then Ok([])
    else
      match ItemsOf(lines[..|lines| - 1], rt, freshId)
      case Err(m) => Err(m)
      case Ok(xs) =>
        match ParseLine(lines[|lines| - 1], rt)
        case NotJson => Ok(xs)
        case Invalid(m) => Err(m)
        case Item(input, reference) => Ok(xs + [ParsedItem(freshId(|xs|), input, reference)])
  }

  /** Lines that are JSON objects, counted. */
  function CountObjects(lines: seq<string>, rt: Runtime): (n: nat)
    ensures n <= |lines|
  {
    if |lines| == 0 then 0
    else CountObjects(lines[..|lines| - 1], rt) + (if ParseLine(lines[|lines| - 1], rt).Item? then 1 else 0)
  }

  /**
    When the upload succeeds, there is one item per line that decodes, and
    every such line is an object; a line that is not JSON never fails it.
  */
  lemma {:induction false} ItemsCount(lines: seq<string>, rt: Runtime, freshId: nat -> string)
    ensures ItemsOf(lines, rt, freshId).Ok? ==> |ItemsOf(lines, rt, freshId).value| == CountObjects(lines, rt)
    ensures ItemsOf(lines, rt, freshId).Ok? ==>
              forall i :: 0 <= i < |lines| && rt.loads(lines[i]).Some? ==> ParseLine(lines[i], rt).Item?
    ensures (forall i :: 0 <= i < |lines| ==> rt.loads(lines[i]).None?) ==> ItemsOf(lines, rt, freshId) == Ok([])
  {
    if |lines| > 0 {
      var prefix := lines[..|lines| - 1];
      ItemsCount(prefix, rt, freshId);
      assert forall i :: 0 <= i < |prefix| ==> prefix[i] == lines[i];
      var o := ItemsOf(prefix, rt, freshId);
      if o.Ok? {
        var last := ParseLine(lines[|lines| - 1], rt);
        if last.Item? {
          assert |o.value + [ParsedItem(freshId(|o.value|), last.input, last.reference)]| == |o.value| + 1;
        }
      }
    }
  }

  /** The loop of `create_dataset` over the decoded lines. */
  method BuildItems(lines: seq<string>, rt: Runtime, freshId: nat -> string) returns (r: Result<seq<ParsedItem>>)
    ensures r == ItemsOf(lines, rt, freshId)
  {
    var items: seq<ParsedItem> := [];
    for i := 0 to |lines|
      invariant ItemsOf(lines[..i], rt, freshId) == Ok(items)
    {
      assert lines[..i + 1][..i] == lines[..i];
      var outcome := ParseLine(lines[i], rt);
      match outcome {
        case NotJson =>
        case Invalid(m) =>
          assert lines[..i + 1][i] == lines[i];
          ItemsErrStays(lines, i + 1, rt, freshId);
          assert lines[..|lines|] == lines;
          return Err(m);
        case Item(input, reference) =>
          items := items + [ParsedItem(freshId(|items|), input, reference)];
      }
    }
    assert lines[..|lines|] == lines;
    return Ok(items);
  }

  /** Once a prefix fails, every longer prefix fails with the same message. */
  lemma {:induction false} ItemsErrStays(lines: seq<string>, k: nat, rt: Runtime, freshId: nat -> string)
    requires 0 < k <= |lines|
    requires ItemsOf(lines[..k], rt, freshId).Err?
    ensures ItemsOf(lines, rt, freshId) == ItemsOf(lines[..k], rt, freshId)
    decreases |lines| - k
  {
    if k < |lines| {
      assert lines[..k + 1][..k] == lines[..k];
      ItemsErrStays(lines, k + 1, rt, freshId);
    } else {
      assert lines[..k] == lines;
    }
  }

  /** `str(item.input)`: a string as it is, a dictionary as Python prints it. */
  function InputText(input: ItemInput, rt: Runtime): string
  {
    match input
    case StringInput(s) => s
    case ObjectInput(v) => rt.showDict(if v.JObj? then v.fields else map[])
  }

  // ----- Models -----

  /** The model posted to `create_model`. */
  datatype ModelPayload = ModelPayload(id: string, name: string, provider: string, baseUrl: string,
                                       apiKey: string, modelId: string, config: Option<Json>)

  /** The id a new model is stored under: its own, or a fresh one when it is empty. */
  function ModelKey(m: ModelPayload, freshId: string): string
  {
    if m.id == "" then freshId else m.id
  }

  /** The database: its tables, changed only by committed requests. */
  class Database {
    var datasets: map<string, DatasetRow>
    var items: seq<ItemRow>
    var models: map<string, ModelRow>
    var runs: map<string, RunRow>
    var results: seq<ResultRow>

    constructor ()
      ensures datasets == map[] && items == [] && models == map[] && runs == map[] && results == []
    {
      datasets := map[];
      items := [];
      models := map[];
      runs := map[];
      results := [];
    }

    /** `create_run`: a new pending row whose total is its dataset's item count, or 0 when there is none. */
    method CreateRun(config: RunConfig, runId: string, now: Instant) returns (row: RunRow)
      modifies this
      ensures row == NewRunRow(config, runId,
                               if config.datasetId.Some? && config.datasetId.value in old(datasets)
                               then Some(old(datasets)[config.datasetId.value]) else None, now)
      ensures runs == old(runs)[runId := row]
      ensures datasets == old(datasets) && items == old(items) && models == old(models) && results == old(results)
    {
      var dataset: Option<DatasetRow> := None;
      if config.datasetId.Some? && config.datasetId.value in datasets {
        dataset := Some(datasets[config.datasetId.value]);
      }
      row := NewRunRow(config, runId, dataset, now);
      runs := runs[runId := row];
    }

    /** `update_run`: 404 for an unknown run; otherwise the present fields, committed only if every timestamp parses. */
    method UpdateRun(runId: string, u: RunUpdates, rt: Runtime) returns (r: Result<RunRow>)
      modifies this
      ensures runId !in old(runs) ==> r == Err("Run not found") && runs == old(runs)
      ensures runId in old(runs) ==> r == ApplyUpdates(old(runs)[runId], u, rt)
      ensures runId in old(runs) && r.Ok? ==> runs == old(runs)[runId := r.value]
      ensures r.Err? ==> runs == old(runs)
      ensures datasets == old(datasets) && items == old(items) && models == old(models) && results == old(results)
    {
      if runId !in runs {
        return Err("Run not found");
      }
      r := ApplyUpdates(runs[runId], u, rt);
      if r.Ok? {
        runs := runs[runId := r.value];
      }
    }

    /** `create_run_result`: the result is always stored; only an existing run is counted. */
    method CreateRunResult(runId: string, p: ResultPayload, resultId: string, now: Instant, dumps: Json -> string)
      modifies this
      ensures results == old(results) + [NewResultRow(resultId, runId, p, dumps)]
      ensures runId in old(runs) ==> runs == old(runs)[runId := AfterResult(old(runs)[runId], now)]
      ensures runId !in old(runs) ==> runs == old(runs)
      ensures datasets == old(datasets) && items == old(items) && models == old(models)
    {
      results := results + [NewResultRow(resultId, runId, p, dumps)];
      if runId in runs {
        runs := runs[runId := AfterResult(runs[runId], now)];
      }
    }

    /**
      `create_dataset`: the content is stripped and split into lines; on
      success the dataset row counts the kept items and one item row per kept
      item is stored; on failure nothing is stored.
    */
    method CreateDataset(fileName: string, content: string, rt: Runtime, datasetId: string,
                         freshId: nat -> string) returns (r: Result<DatasetRow>)
      modifies this
      ensures ItemsOf(Split(PyStrip(content), '\n'), rt, freshId).Err? ==>
                r.Err? && datasets == old(datasets) && items == old(items)
      ensures ItemsOf(Split(PyStrip(content), '\n'), rt, freshId).Ok? ==>
                var kept := ItemsOf(Split(PyStrip(content), '\n'), rt, freshId).value;
                r == Ok(DatasetRow(datasetId, fileName, "Dataset uploaded from " + fileName, fileName,
                                   |content|, |kept|)) &&
                datasets == old(datasets)[datasetId := r.value] &&
                items == old(items) + seq(|kept|, i requires 0 <= i < |kept| =>
                           ItemRow(kept[i].id, datasetId, InputText(kept[i].input, rt), kept[i].reference))
      ensures runs == old(runs) && models == old(models) && results == old(results)
    {
      var lines := Split(PyStrip(content), '\n');
      var built := BuildItems(lines, rt, freshId);
      if built.Err? {
        return Err(built.message);
      }
      var kept := built.value;
      var row := DatasetRow(datasetId, fileName, "Dataset uploaded from " + fileName, fileName, |content|, |kept|);
      datasets := datasets[datasetId := row];
      var added: seq<ItemRow> := [];
      for i := 0 to |kept|
        invariant added == seq(i, k requires 0 <= k < i =>
                               ItemRow(kept[k].id, datasetId, InputText(kept[k].input, rt), kept[k].reference))
      {
        added := added + [ItemRow(kept[i].id, datasetId, InputText(kept[i].input, rt), kept[i].reference)];
      }
      items := items + added;
      r := Ok(row);
    }

    /** `create_model`: an id already stored is refused and nothing changes; otherwise the model is stored under it. */
    method CreateModel(m: ModelPayload, freshId: string, dumps: Json -> string) returns (r: Result<ModelRow>)
      modifies this
      ensures ModelKey(m, freshId) in old(models) ==>
                r == Err("Model with this ID already exists") && models == old(models)
      ensures ModelKey(m, freshId) !in old(models) ==>
                r.Ok? && r.value.id == ModelKey(m, freshId) &&
                r.value == ModelRow(ModelKey(m, freshId), m.name, m.provider, m.baseUrl, m.apiKey, m.modelId,
                                    if m.config.Some? && PyTruthy(m.config.value) then Some(dumps(m.config.value))
                                    else None) &&
                models == old(models)[ModelKey(m, freshId) := r.value]
      ensures old(models).Keys <= models.Keys
      ensures datasets == old(datasets) && items == old(items) && runs == old(runs) && results == old(results)
    {
      var id := ModelKey(m, freshId);
      if id in models {
        return Err("Model with this ID already exists");
      }
      var config := if m.config.Some? && PyTruthy(m.config.value) then Some(dumps(m.config.value)) else None;
      var row := ModelRow(id, m.name, m.provider, m.baseUrl, m.apiKey, m.modelId, config);
      models := models[id := row];
      r := Ok(row);
    }
  }
}
