/**
  The list transforms of the application store (context/AppContext.tsx):
  prepending a new dataset, model or run, removing models by id, merging a
  partial update into the run with a given id, and the translation lookup `t`.
  What the store also writes to the backend or to local storage is not part of
  this model.
*/
module Store {

  import opened Types

  /** `prev => [x, ...prev]`, the update of addDataset, addModel and addRun. */
  function Prepend<T>(x: T, xs: seq<T>): (r: seq<T>)
    ensures |r| == |xs| + 1 && r[0] == x && r[1..] == xs
  {
    [x] + xs
  }

  /** `runs.find(r => r.id === id)`. */
  function FindRun(runs: seq<EvaluationRun>, id: string): (r: Option<EvaluationRun>)
    ensures r.Some? ==> r.value in runs && r.value.id == id
    ensures r.None? <==> forall x :: x in runs ==> x.id != id
  {
    if |runs| == 0 then None
    else if runs[0].id == id then Some(runs[0])
    else FindRun(runs[1..], id)
  }

  /** A model just added shadows every older model with the same id. */
  lemma AddModelFound(m: LLMModel, models: seq<LLMModel>)
    ensures FindModel(Prepend(m, models), m.id) == Some(m)
  {
  }

  /** Looking up any other id sees the old list. */
  lemma {:induction false} AddModelOthers(m: LLMModel, models: seq<LLMModel>, id: string)
    requires id != m.id
    ensures FindModel(Prepend(m, models), id) == FindModel(models, id)
  {
    assert Prepend(m, models)[1..] == models;
  }

  lemma AddDatasetFound(d: Dataset, datasets: seq<Dataset>)
    ensures FindDataset(Prepend(d, datasets), d.id) == Some(d)
  {
  }

  lemma AddRunFound(run: EvaluationRun, runs: seq<EvaluationRun>)
    ensures FindRun(Prepend(run, runs), run.id) == Some(run)
  {
  }

  /** `prev.filter(m => m.id !== id)`. */
  function RemoveModel(models: seq<LLMModel>, id: string): (r: seq<LLMModel>)
    ensures |r| <= |models|
    ensures forall m :: m in r <==> m in models && m.id != id
  {
    if |models| == 0 then []
    else if models[0].id == id then RemoveModel(models[1..], id)
    else [models[0]] + RemoveModel(models[1..], id)
  }

  /** The filter keeps order: it distributes over concatenation. */
  lemma {:induction false} RemoveModelConcat(a: seq<LLMModel>, b: seq<LLMModel>, id: string)
    ensures RemoveModel(a + b, id) == RemoveModel(a, id) + RemoveModel(b, id)
  {
    if |a| == 0 {
      assert a + b == b;
    } else {
      assert (a + b)[1..] == a[1..] + b;
      RemoveModelConcat(a[1..], b, id);
    }
  }

  /** Removing an id that no model carries leaves the list as it was. */
  lemma {:induction false} RemoveModelAbsent(models: seq<LLMModel>, id: string)
    requires forall m :: m in models ==> m.id != id
    ensures RemoveModel(models, id) == models
  {
    if |models| > 0 {
      assert models == [models[0]] + models[1..];
      RemoveModelAbsent(models[1..], id);
    }
  }

  lemma RemoveModelIdempotent(models: seq<LLMModel>, id: string)
    ensures RemoveModel(RemoveModel(models, id), id) == RemoveModel(models, id)
  {
    RemoveModelAbsent(RemoveModel(models, id), id);
  }

  /** Other ids resolve as before the removal. */
  lemma {:induction false} RemoveModelOthers(models: seq<LLMModel>, id: string, other: string)
    requires other != id
    ensures FindModel(RemoveModel(models, id), other) == FindModel(models, other)
  {
    if |models| > 0 {
      RemoveModelOthers(models[1..], id, other);
      if models[0].id != id {
        assert ([models[0]] + RemoveModel(models[1..], id))[1..] == RemoveModel(models[1..], id);
      }
    }
  }

  /**
    `Partial<EvaluationRun>`: each field is present (`Some`) or absent. A key
    that is present with the value `undefined` is not represented.
  */
  datatype RunPatch = RunPatch(
    id: Option<string>, configId: Option<string>, configSnapshot: Option<EvaluationConfig>,
    timestamp: Option<string>, status: Option<RunStatus>, progress: Option<int>,
    total: Option<int>, results: Option<seq<EvaluationResultItem>>)

  const NoChanges := RunPatch(None, None, None, None, None, None, None, None)

  function Pick<T>(update: Option<T>, current: T): T
  {
    match update
    case Some(v) => v
    case None => current
  }

  /** `{ ...r, ...updates }`: present fields take the update's value, the others keep theirs. */
  function MergeRun(run: EvaluationRun, p: RunPatch): (r: EvaluationRun)
    ensures p.id.Some? ==> r.id == p.id.value
    ensures p.id.None? ==> r.id == run.id
    ensures p.configId.Some? ==> r.configId == p.configId.value
    ensures p.configId.None? ==> r.configId == run.configId
    ensures p.configSnapshot.Some? ==> r.configSnapshot == p.configSnapshot.value
    ensures p.configSnapshot.None? ==> r.configSnapshot == run.configSnapshot
    ensures p.timestamp.Some? ==> r.timestamp == p.timestamp.value
    ensures p.timestamp.None? ==> r.timestamp == run.timestamp
    ensures p.status.Some? ==> r.status == p.status.value
    ensures p.status.None? ==> r.status == run.status
    ensures p.progress.Some? ==> r.progress == p.progress.value
    ensures p.progress.None? ==> r.progress == run.progress
    ensures p.total.Some? ==> r.total == p.total.value
    ensures p.total.None? ==> r.total == run.total
    ensures p.results.Some? ==> r.results == p.results.value
    ensures p.results.None? ==> r.results == run.results
  {
    EvaluationRun(
      Pick(p.id, run.id), Pick(p.configId, run.configId),
      Pick(p.configSnapshot, run.configSnapshot), Pick(p.timestamp, run.timestamp),
      Pick(p.status, run.status), Pick(p.progress, run.progress),
      Pick(p.total, run.total), Pick(p.results, run.results))
  }

  /** Two patches applied in turn: the later one wins where both are present. */
  function Then(p: RunPatch, q: RunPatch): RunPatch
  {
    RunPatch(
      if q.id.Some? then q.id else p.id,
      if q.configId.Some? then q.configId else p.configId,
      if q.configSnapshot.Some? then q.configSnapshot else p.configSnapshot,
      if q.timestamp.Some? then q.timestamp else p.timestamp,
      if q.status.Some? then q.status else p.status,
      if q.progress.Some? then q.progress else p.progress,
      if q.total.Some? then q.total else p.total,
      if q.results.Some? then q.results else p.results)
  }

  lemma MergeRunNoChanges(run: EvaluationRun)
    ensures MergeRun(run, NoChanges) == run
  {
  }

  lemma MergeRunThen(run: EvaluationRun, p: RunPatch, q: RunPatch)
    ensures MergeRun(MergeRun(run, p), q) == MergeRun(run, Then(p, q))
  {
  }

  /** `prev.map(r => r.id === id ? { ...r, ...updates } : r)`. */
  function UpdateRun(runs: seq<EvaluationRun>, id: string, p: RunPatch): (r: seq<EvaluationRun>)
    ensures |r| == |runs|
    ensures forall i :: 0 <= i < |runs| && runs[i].id != id ==> r[i] == runs[i]
    ensures forall i :: 0 <= i < |runs| && runs[i].id == id ==> r[i] == MergeRun(runs[i], p)
  {
    seq(|runs|, i requires 0 <= i < |runs| => if runs[i].id == id then MergeRun(runs[i], p) else runs[i])
  }

  lemma UpdateRunAbsent(runs: seq<EvaluationRun>, id: string, p: RunPatch)
    requires forall x :: x in runs ==> x.id != id
    ensures UpdateRun(runs, id, p) == runs
  {
  }

  /** An empty update changes no run. */
  lemma UpdateRunNoChanges(runs: seq<EvaluationRun>, id: string)
    ensures UpdateRun(runs, id, NoChanges) == runs
  {
    forall i | 0 <= i < |runs| ensures UpdateRun(runs, id, NoChanges)[i] == runs[i] {
      MergeRunNoChanges(runs[i]);
    }
  }

  /** Two updates of the same run compose, provided the first keeps the run's id. */
  lemma UpdateRunTwice(runs: seq<EvaluationRun>, id: string, p: RunPatch, q: RunPatch)
    requires p.id.None?
    ensures UpdateRun(UpdateRun(runs, id, p), id, q) == UpdateRun(runs, id, Then(p, q))
  {
    var once := UpdateRun(runs, id, p);
    forall i | 0 <= i < |runs|
      ensures UpdateRun(once, id, q)[i] == UpdateRun(runs, id, Then(p, q))[i]
    {
      if runs[i].id == id {
        MergeRunThen(runs[i], p, q);
      }
    }
  }

  /** After an update that keeps ids, the first run with that id is the merged one. */
  lemma {:induction false} FindUpdatedRun(runs: seq<EvaluationRun>, id: string, p: RunPatch)
    requires p.id.None?
    requires FindRun(runs, id).Some?
    ensures FindRun(UpdateRun(runs, id, p), id) == Some(MergeRun(FindRun(runs, id).value, p))
  {
    var r := UpdateRun(runs, id, p);
    if runs[0].id != id {
      assert r[1..] == UpdateRun(runs[1..], id, p);
      FindUpdatedRun(runs[1..], id, p);
    }
  }

  /**
    `t(key)`: `translations[language]?.[key] || key`, the translation when it
    exists and is not empty, and otherwise the key itself.
  */
  function Translate(translations: map<string, map<string, string>>, language: string, key: string): (r: string)
    ensures language in translations && key in translations[language] && translations[language][key] != "" ==>
              r == translations[language][key]
    ensures !(language in translations && key in translations[language]) ==> r == key
    ensures language in translations && key in translations[language] && translations[language][key] == "" ==>
              r == key
  {
    if language in translations && key in translations[language] && translations[language][key] != "" then
      translations[language][key]
    else key
  }

  /** A non-empty key never translates to the empty string. */
  lemma TranslateNonEmpty(translations: map<string, map<string, string>>, language: string, key: string)
    requires key != ""
    ensures Translate(translations, language, key) != ""
  {
  }
}
