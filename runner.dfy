/**
  The evaluation runner of pages/EvaluationRunner.tsx: the model and metric
  toggles, the start checks, the new run record, the matrix of tasks over (item,
  model) pairs, one bounded executor per selected model, and a run of all tasks
  to the point where no task is in flight any more.

  The calls the runner makes into code outside the model are parameters: the
  completion of each task (`generateCompletion`, which never throws; a task's
  position is an argument, so two tasks on the same pair may get different
  replies), `JSON.stringify` of a structured input, the scoring oracles, and
  whether a task's body throws (`Fault`).
*/
module Runner {

  import opened Types
  import opened Scoring
  import opened Executor
  import opened Store

  // ---------------------------------------------------------------------------
  // Toggles

  /** `xs.filter(y => y !== x)`. */
  function Without<T(==)>(xs: seq<T>, x: T): (r: seq<T>)
    ensures |r| <= |xs|
    ensures forall y :: y in r ==> y in xs && y != x
    ensures forall y :: y in xs && y != x ==> y in r
  {
    if |xs| == 0 then []
    else (if xs[0] == x then [] else [xs[0]]) + Without(xs[1..], x)
  }

  /** The filter keeps a list without `x` as it is. */
  lemma {:induction false} WithoutAbsent<T>(xs: seq<T>, x: T)
    requires x !in xs
    ensures Without(xs, x) == xs
  {
    if |xs| > 0 {
      WithoutAbsent(xs[1..], x);
      assert xs == [xs[0]] + xs[1..];
    }
  }

  /** The filter distributes over concatenation. */
  lemma {:induction false} WithoutConcat<T>(a: seq<T>, b: seq<T>, x: T)
    ensures Without(a + b, x) == Without(a, x) + Without(b, x)
  {
    if |a| == 0 {
      assert a + b == b;
    } else {
      assert (a + b)[1..] == a[1..] + b;
      WithoutConcat(a[1..], b, x);
    }
  }

  /** No element occurs twice. */
  predicate NoDup<T(==)>(xs: seq<T>)
  {
    forall i, j :: 0 <= i < j < |xs| ==> xs[i] != xs[j]
  }

  lemma {:induction false} WithoutNoDup<T>(xs: seq<T>, x: T)
    requires NoDup(xs)
    ensures NoDup(Without(xs, x))
  {
    if |xs| > 0 {
      WithoutNoDup(xs[1..], x);
      var head := if xs[0] == x then [] else [xs[0]];
      var rest := Without(xs[1..], x);
      assert xs[0] !in xs[1..];
      assert Without(xs, x) == head + rest;
      forall i, j | 0 <= i < j < |head + rest|
        ensures (head + rest)[i] != (head + rest)[j]
      {
        if i < |head| {
          assert (head + rest)[j] in rest;
        }
      }
    }
  }

  /**
    `handleModelToggle` and `handleMetricToggle`: a selected entry is removed,
    an unselected one is appended at the end.
  */
  function Toggle<T(==)>(xs: seq<T>, x: T): (r: seq<T>)
    ensures x in r <==> x !in xs
    ensures forall y :: y in r && y != x ==> y in xs
    ensures forall y :: y in xs && y != x ==> y in r
    ensures x !in xs ==> r == xs + [x]
  {
    if x in xs then Without(xs, x) else xs + [x]
  }

  /** Toggling an unselected entry twice restores the selection. */
  lemma ToggleTwiceAbsent<T>(xs: seq<T>, x: T)
    requires x !in xs
    ensures Toggle(Toggle(xs, x), x) == xs
  {
    WithoutConcat(xs, [x], x);
    WithoutAbsent(xs, x);
    assert Without([x], x) == [];
  }

  /** Toggling a selected entry twice moves it to the end. */
  lemma ToggleTwicePresent<T>(xs: seq<T>, x: T)
    requires x in xs
    ensures Toggle(Toggle(xs, x), x) == Without(xs, x) + [x]
  {
  }

  /** A selection built by toggles never lists an entry twice. */
  lemma ToggleNoDup<T>(xs: seq<T>, x: T)
    requires NoDup(xs)
    ensures NoDup(Toggle(xs, x))
  {
    if x in xs {
      WithoutNoDup(xs, x);
    }
  }

  // ---------------------------------------------------------------------------
  // Starting a run

  /** The form state of the runner page. */
  datatype RunForm = RunForm(
    datasetId: string, modelIds: seq<string>, metrics: seq<MetricType>,
    systemPrompt: string, judgeModelId: string, customCode: string)

  /** The run's three fresh ids (`uuidv4()`), the local time of day and the ISO timestamp. */
  datatype FreshValues = FreshValues(
    runId: string, configId: string, snapshotId: string, localTime: string, timestamp: string)

  /** The checks before a run starts: the selected dataset, one model and one metric. */
  function CheckStart(datasets: seq<Dataset>, form: RunForm): (r: Option<Dataset>)
    ensures r.None? <==>
              FindDataset(datasets, form.datasetId).None? || form.modelIds == [] || form.metrics == []
    ensures r.Some? ==> r.value in datasets && r.value.id == form.datasetId
  {
    var dataset := FindDataset(datasets, form.datasetId);
    if dataset.None? || |form.modelIds| == 0 || |form.metrics| == 0 then None else dataset
  }

  /** The configuration snapshot stored in the run. */
  function Snapshot(form: RunForm, ids: FreshValues): EvaluationConfig
  {
    EvaluationConfig(ids.snapshotId, "Eval " + ids.localTime, form.datasetId, form.modelIds,
                     form.metrics, form.systemPrompt, form.judgeModelId, form.customCode)
  }

  /**
    The new run: running, nothing done, and a total of items times selected
    models, which counts a selected model that no longer exists as well.
  */
  function NewRun(dataset: Dataset, form: RunForm, ids: FreshValues): (r: EvaluationRun)
    ensures r.id == ids.runId && r.configId == ids.configId && r.timestamp == ids.timestamp
    ensures r.configSnapshot.datasetId == form.datasetId && r.configSnapshot.modelIds == form.modelIds
    ensures r.configSnapshot.metrics == form.metrics && r.configSnapshot.name == "Eval " + ids.localTime
    ensures r.configSnapshot.id == ids.snapshotId && r.configSnapshot.systemPrompt == form.systemPrompt
    ensures r.configSnapshot.judgeModelId == form.judgeModelId
    ensures r.configSnapshot.customMetricCode == form.customCode
    ensures r.configSnapshot == Snapshot(form, ids)
    ensures r.status == Running && r.progress == |r.results| == 0
    ensures r.total == |dataset.items| * |form.modelIds|
  {
    EvaluationRun(ids.runId, ids.configId, Snapshot(form, ids), ids.timestamp,
                  Running, 0, |dataset.items| * |form.modelIds|, [])
  }

  /** `model.maxConcurrency || 16`: an absent or zero limit is 16; a negative one is kept. */
  function ConcurrencyLimit(m: LLMModel): (n: int)
    ensures m.maxConcurrency.None? ==> n == 16
    ensures m.maxConcurrency.Some? && m.maxConcurrency.value == 0 ==> n == 16
    ensures m.maxConcurrency.Some? && m.maxConcurrency.value != 0 ==> n == m.maxConcurrency.value
  {
    match m.maxConcurrency
    case None => 16
    case Some(k) => if k == 0 then 16 else k
  }

  /** A model's tasks can start exactly when its limit is absent or not negative. */
  lemma LimitAdmits(m: LLMModel)
    ensures ConcurrencyLimit(m) >= 1 <==> m.maxConcurrency.None? || m.maxConcurrency.value >= 0
  {
  }

  // ---------------------------------------------------------------------------
  // The matrix of tasks

  /** One `executor.execute(task)` call: its position, the item's position and the model id. */
  datatype Task = Task(index: nat, itemIndex: nat, modelId: string)

  /** A selected model id takes part when a model with that id exists. */
  predicate Resolves(models: seq<LLMModel>, id: string)
  {
    FindModel(models, id).Some?
  }

  /** The inner loop for one item: the selected ids that resolve, in selection order. */
  function RowPairs(item: nat, ids: seq<string>, models: seq<LLMModel>): (r: seq<(nat, string)>)
    ensures forall p :: p in r ==> p.0 == item && p.1 in ids && Resolves(models, p.1)
  {
    if ids == [] then []
    else
      var last := ids[|ids| - 1];
      RowPairs(item, ids[..|ids| - 1], models) + (if Resolves(models, last) then [(item, last)] else [])
  }

  /** Both loops over the first `n` items, item by item. */
  function Pairs(n: nat, ids: seq<string>, models: seq<LLMModel>): (r: seq<(nat, string)>)
    ensures forall p :: p in r ==> p.0 < n && p.1 in ids && Resolves(models, p.1)
  {
    if n == 0 then [] else Pairs(n - 1, ids, models) + RowPairs(n - 1, ids, models)
  }

  /** Tasks carry their own position. */
  function Number(pairs: seq<(nat, string)>): (r: seq<Task>)
    ensures |r| == |pairs|
    ensures forall k :: 0 <= k < |r| ==> r[k] == Task(k, pairs[k].0, pairs[k].1)
  {
    seq(|pairs|, k requires 0 <= k < |pairs| => Task(k, pairs[k].0, pairs[k].1))
  }

  lemma NumberSnoc(pairs: seq<(nat, string)>, p: (nat, string))
    ensures Number(pairs + [p]) == Number(pairs) + [Task(|pairs|, p.0, p.1)]
  {
  }

  /** The tasks the two loops submit, in submission order. */
  function TaskMatrix(nItems: nat, ids: seq<string>, models: seq<LLMModel>): (r: seq<Task>)
    ensures forall k :: 0 <= k < |r| ==>
              r[k].index == k && r[k].itemIndex < nItems && r[k].modelId in ids && Resolves(models, r[k].modelId)
  {
    var pairs := Pairs(nItems, ids, models);
    assert forall k :: 0 <= k < |pairs| ==> pairs[k] in pairs;
    Number(pairs)
  }

  /** The number of selected ids that resolve. */
  function ResolvedCount(ids: seq<string>, models: seq<LLMModel>): nat
  {
    CountIf(ids, id => Resolves(models, id))
  }

  lemma {:induction false} RowPairsCount(item: nat, ids: seq<string>, models: seq<LLMModel>)
    ensures |RowPairs(item, ids, models)| == ResolvedCount(ids, models)
  {
    if ids != [] {
      RowPairsCount(item, ids[..|ids| - 1], models);
    }
  }

  lemma MulStep(n: nat, r: nat)
    requires n > 0
    ensures (n - 1) * r + r == n * r
  {
  }

  /** The matrix has one task per item and resolving selected id. */
  lemma {:induction false} MatrixSize(nItems: nat, ids: seq<string>, models: seq<LLMModel>)
    ensures |TaskMatrix(nItems, ids, models)| == nItems * ResolvedCount(ids, models)
  {
    if nItems > 0 {
      MatrixSize(nItems - 1, ids, models);
      RowPairsCount(nItems - 1, ids, models);
      MulStep(nItems, ResolvedCount(ids, models));
    }
  }

  lemma MulCancel(n: nat, a: nat, b: nat)
    requires n > 0
    ensures n * a == n * b <==> a == b
  {
    if a < b {
      assert n * b == n * a + n * (b - a);
    } else if b < a {
      assert n * a == n * b + n * (a - b);
    }
  }

  lemma MulMono(n: nat, a: nat, b: nat)
    requires a <= b
    ensures n * a <= n * b
  {
    assert n * b == n * a + n * (b - a);
  }

  /**
    The run's `total` counts the tasks submitted exactly when the dataset is
    empty or every selected id resolves; otherwise fewer tasks run than the
    total announces.
  */
  lemma MatrixMatchesTotal(dataset: Dataset, form: RunForm, ids: FreshValues, models: seq<LLMModel>)
    ensures |TaskMatrix(|dataset.items|, form.modelIds, models)| <= NewRun(dataset, form, ids).total
    ensures |TaskMatrix(|dataset.items|, form.modelIds, models)| == NewRun(dataset, form, ids).total <==>
              |dataset.items| == 0 || forall i :: 0 <= i < |form.modelIds| ==> Resolves(models, form.modelIds[i])
  {
    var n := |dataset.items|;
    var ids := form.modelIds;
    MatrixSize(n, ids, models);
    CountIfAll(ids, id => Resolves(models, id));
    MulMono(n, ResolvedCount(ids, models), |ids|);
    if n > 0 {
      MulCancel(n, ResolvedCount(ids, models), |ids|);
    }
  }

  // ---------------------------------------------------------------------------
  // One task's outcome

  /**
    How the body of one task ends: the `try` block runs to its end; it throws
    before its push and the `catch` block records the error entry; or it
    throws, the `catch` block pushes and counts the error entry, and its
    `updateRun` throws while saving. `updateRun` has already handed the new
    results to the store when its save throws, so the entry is published and
    the task's promise rejects.
  */
  datatype Fault = NoFault | Caught(message: string) | Escaped(message: string)

  datatype Completion = Completion(content: string, latency: real)

  /** The calls into code outside the model, by task position where they may differ per call. */
  datatype RunOracles = RunOracles(
    scoring: Oracles,
    complete: (nat, LLMModel, string, string) -> Completion,
    stringify: Json -> string,
    fault: nat -> Fault)

  /** Everything a task reads: the dataset's items, the models, the form, the judge and the oracles. */
  datatype Setup = Setup(
    items: seq<DatasetItem>, models: seq<LLMModel>, form: RunForm,
    judge: Option<LLMModel>, env: RunOracles)

  predicate WellFormed(t: Task, s: Setup)
  {
    t.itemIndex < |s.items| && Resolves(s.models, t.modelId)
  }

  /** The user message: the input itself, or the JSON text of a structured input. */
  function InputText(input: ItemInput, stringify: Json -> string): (r: string)
    ensures input.StringInput? ==> r == input.text
  {
    match input
    case StringInput(text) => text
    case ObjectInput(value) => stringify(value)
  }

  /** The model that runs a task. */
  function ModelOf(t: Task, s: Setup): (m: LLMModel)
    requires Resolves(s.models, t.modelId)
    ensures m in s.models && m.id == t.modelId
  {
    FindModel(s.models, t.modelId).value
  }

  /** The concurrency limit of the executor a task is submitted to. */
  function LimitOf(t: Task, s: Setup): int
    requires Resolves(s.models, t.modelId)
  {
    ConcurrencyLimit(ModelOf(t, s))
  }

  /** The scores `calculateScores` returns for one reply. */
  function Scores(input: string, output: string, reference: Option<string>, s: Setup): (r: map<MetricType, Score>)
    ensures r.Keys == set m | m in s.form.metrics
    ensures forall m :: m in r ==>
              r[m] == MetricValue(m, input, output, reference, s.judge, s.form.customCode, s.env.scoring)
  {
    map m | m in s.form.metrics :: MetricValue(m, input, output, reference, s.judge, s.form.customCode, s.env.scoring)
  }

  /** The result of a task whose body returns normally. */
  function ScoredResult(t: Task, s: Setup): (r: EvaluationResultItem)
    requires WellFormed(t, s)
    ensures r.itemId == s.items[t.itemIndex].id && r.modelId == t.modelId
    ensures r.reference == s.items[t.itemIndex].reference
    ensures r.input == InputText(s.items[t.itemIndex].input, s.env.stringify)
    ensures r.output == s.env.complete(t.index, ModelOf(t, s), s.form.systemPrompt, r.input).content
    ensures r.latencyMs == s.env.complete(t.index, ModelOf(t, s), s.form.systemPrompt, r.input).latency
    ensures r.scores == Scores(r.input, r.output, r.reference, s)
  {
    var item := s.items[t.itemIndex];
    var model := ModelOf(t, s);
    var input := InputText(item.input, s.env.stringify);
    var reply := s.env.complete(t.index, model, s.form.systemPrompt, input);
    EvaluationResultItem(item.id, model.id, input, reply.content, item.reference,
                         Scores(input, reply.content, item.reference, s), reply.latency)
  }

  /** The `catch` block's result: the message as output, a zero for every selected metric, no latency. */
  function ErrorResult(t: Task, s: Setup, message: string): (r: EvaluationResultItem)
    requires WellFormed(t, s)
    ensures r.itemId == s.items[t.itemIndex].id && r.modelId == t.modelId
    ensures r.input == InputText(s.items[t.itemIndex].input, s.env.stringify)
    ensures r.output == "[ERROR]: " + message && r.latencyMs == 0.0
    ensures r.reference == s.items[t.itemIndex].reference
    ensures r.scores.Keys == set m | m in s.form.metrics
    ensures forall m :: m in r.scores ==> r.scores[m] == Num(0.0)
  {
    var item := s.items[t.itemIndex];
    EvaluationResultItem(item.id, ModelOf(t, s).id, InputText(item.input, s.env.stringify),
                         "[ERROR]: " + message, item.reference,
                         map m | m in s.form.metrics :: Num(0.0), 0.0)
  }

  /** The one entry a settled task adds to the run's results. */
  function Outcome(t: Task, s: Setup): EvaluationResultItem
    requires WellFormed(t, s)
  {
    match s.env.fault(t.index)
    case NoFault => ScoredResult(t, s)
    case Caught(message) => ErrorResult(t, s, message)
    case Escaped(message) => ErrorResult(t, s, message)
  }

  /**
    A task's entry belongs to its item and model; it is scored when the body
    ran to its end, and otherwise it is the error entry of the thrown message,
    whether or not the throw escaped the `catch` block.
  */
  lemma OutcomeOf(t: Task, s: Setup)
    requires WellFormed(t, s)
    ensures var r := Outcome(t, s);
            && r.itemId == s.items[t.itemIndex].id && r.modelId == t.modelId
            && r.input == InputText(s.items[t.itemIndex].input, s.env.stringify)
            && r.reference == s.items[t.itemIndex].reference
            && (s.env.fault(t.index).NoFault? ==> r.scores == Scores(r.input, r.output, r.reference, s))
            && (!s.env.fault(t.index).NoFault? ==>
                  r.output == "[ERROR]: " + s.env.fault(t.index).message && r.latencyMs == 0.0 &&
                  r.scores.Keys == set m | m in s.form.metrics)
  {
  }

  /** The results of the settled tasks: one per task, in settling order. */
  function Outcomes(ts: seq<Task>, s: Setup): (r: seq<EvaluationResultItem>)
    requires forall t :: t in ts ==> WellFormed(t, s)
    ensures |r| == |ts|
  {
    if ts == [] then []
    else
      var init := ts[..|ts| - 1];
      assert forall t :: t in init ==> t in ts;
      Outcomes(init, s) + [Outcome(ts[|ts| - 1], s)]
  }

  /** The `k`-th entry of the results is the `k`-th settled task's. */
  lemma {:induction false} OutcomesAt(ts: seq<Task>, s: Setup, k: nat)
    requires forall t :: t in ts ==> WellFormed(t, s)
    requires k < |ts|
    ensures Outcomes(ts, s)[k] == Outcome(ts[k], s)
  {
    var init := ts[..|ts| - 1];
    assert forall t :: t in init ==> t in ts;
    if k < |init| {
      OutcomesAt(init, s, k);
      assert ts[k] == init[k];
    }
  }

  /** Every entry of the results belongs to a settled task. */
  lemma {:induction false} OutcomesFrom(ts: seq<Task>, s: Setup, x: EvaluationResultItem)
    requires forall t :: t in ts ==> WellFormed(t, s)
    requires x in Outcomes(ts, s)
    ensures exists t :: t in ts && Outcome(t, s) == x
  {
    var last := ts[|ts| - 1];
    var init := ts[..|ts| - 1];
    assert forall t :: t in init ==> t in ts;
    if x in Outcomes(init, s) {
      OutcomesFrom(init, s, x);
      var t :| t in init && Outcome(t, s) == x;
      assert t in ts;
    } else {
      assert Outcome(last, s) == x;
    }
  }

  // ---------------------------------------------------------------------------
  // Where the tasks are, on values

  /** What the runner needs of one executor: its queue, its running tasks and its limit. */
  datatype View = View(queue: seq<Task>, inFlight: multiset<Task>, limit: int)

  /** A task waits at an executor when it is running there or queued there. */
  predicate WaitsIn(v: View, t: Task)
  {
    t in v.inFlight || t in v.queue
  }

  /** No task runs twice, runs and waits, or waits twice. */
  predicate Tidy(v: View)
  {
    && (forall t :: t in v.inFlight ==> v.inFlight[t] == 1 && t !in v.queue)
    && NoDup(v.queue)
  }

  /** The executor's own invariant, on the view: the cap, and a queue only while saturated. */
  predicate Capped(v: View)
  {
    && (|v.inFlight| <= v.limit || |v.inFlight| == 0)
    && (v.queue != [] ==> |v.inFlight| >= v.limit)
  }

  /** The Submit event on a view. */
  function SubmitView(v: View, t: Task): View
  {
    if |v.inFlight| < v.limit && v.queue == [] then View([], v.inFlight + multiset{t}, v.limit)
    else View(v.queue + [t], v.inFlight, v.limit)
  }

  /** The Finish event on a view. */
  function FinishView(v: View, t: Task): View
  {
    if v.queue == [] then View([], v.inFlight - multiset{t}, v.limit)
    else View(v.queue[1..], v.inFlight - multiset{t} + multiset{v.queue[0]}, v.limit)
  }

  /** A submitted task that was not there waits, beside everything that waited. */
  lemma SubmitWaits(v: View, t: Task)
    requires Tidy(v) && !WaitsIn(v, t)
    ensures Tidy(SubmitView(v, t))
    ensures forall u :: WaitsIn(SubmitView(v, t), u) <==> WaitsIn(v, u) || u == t
  {
    var w := SubmitView(v, t);
    if !(|v.inFlight| < v.limit && v.queue == []) {
      forall i, j | 0 <= i < j < |w.queue| ensures w.queue[i] != w.queue[j] {
        if j == |v.queue| {
          assert w.queue[i] in v.queue;
        }
      }
    }
  }

  /** A finished task stops waiting; everything else that waited still does. */
  lemma FinishWaits(v: View, t: Task)
    requires Tidy(v) && t in v.inFlight
    ensures Tidy(FinishView(v, t))
    ensures forall u :: WaitsIn(FinishView(v, t), u) <==> WaitsIn(v, u) && u != t
  {
    var w := FinishView(v, t);
    if v.queue != [] {
      var q := v.queue[0];
      assert q !in v.queue[1..];
      assert q != t;
      forall u | u in w.inFlight ensures w.inFlight[u] == 1 && u !in w.queue {
        if u == q {
          assert v.inFlight[q] == 0;
        } else {
          assert u in v.inFlight;
          assert u !in v.queue;
        }
      }
      forall u | u in v.queue[1..] ensures u in v.queue {
      }
      forall u | WaitsIn(v, u) && u != t ensures WaitsIn(w, u) {
        if u in v.queue && u != q {
          var i :| 0 <= i < |v.queue| && v.queue[i] == u;
          assert v.queue[1..][i - 1] == u;
        }
      }
    } else {
      forall u | u in w.inFlight ensures w.inFlight[u] == 1 && u !in w.queue {
        assert u in v.inFlight;
      }
    }
  }

  /**
    Where the unsettled tasks are: every waiting task is an unsettled task of
    its own model's executor, and every unsettled task waits there.
  */
  ghost predicate Placed(vs: map<string, View>, tasks: seq<Task>, done: set<nat>)
  {
    && (forall id :: id in vs ==> Tidy(vs[id]))
    && (forall id, t :: id in vs && WaitsIn(vs[id], t) ==>
          t.modelId == id && t.index < |tasks| && t.index !in done && tasks[t.index] == t)
    && (forall k :: 0 <= k < |tasks| && k !in done ==>
          tasks[k].index == k && tasks[k].modelId in vs && WaitsIn(vs[tasks[k].modelId], tasks[k]))
  }

  /** A new task, numbered after the others, waits at its model's executor. */
  lemma PlacedAfterSubmit(vs: map<string, View>, tasks: seq<Task>, t: Task)
    requires Placed(vs, tasks, {})
    requires t.index == |tasks| && t.modelId in vs
    ensures Placed(vs[t.modelId := SubmitView(vs[t.modelId], t)], tasks + [t], {})
  {
    var id := t.modelId;
    assert !WaitsIn(vs[id], t);
    SubmitWaits(vs[id], t);
  }

  /** A running task that settles is the unsettled task of its position, and settles it. */
  lemma PlacedAfterFinish(vs: map<string, View>, tasks: seq<Task>, done: set<nat>, id: string, t: Task)
    requires Placed(vs, tasks, done)
    requires id in vs && t in vs[id].inFlight
    ensures t.modelId == id && t.index !in done && t.index < |tasks| && tasks[t.index] == t
    ensures Placed(vs[id := FinishView(vs[id], t)], tasks, done + {t.index})
  {
    assert WaitsIn(vs[id], t);
    FinishWaits(vs[id], t);
    var vs' := vs[id := FinishView(vs[id], t)];
    forall id2, u | id2 in vs' && WaitsIn(vs'[id2], u)
      ensures u.modelId == id2 && u.index < |tasks| && u.index !in done + {t.index} && tasks[u.index] == u
    {
      assert WaitsIn(vs[id2], u);
      assert u != t;
    }
    forall k | 0 <= k < |tasks| && k !in done + {t.index}
      ensures tasks[k].index == k && tasks[k].modelId in vs'
      ensures WaitsIn(vs'[tasks[k].modelId], tasks[k])
    {
      assert tasks[k] != t;
    }
  }

  // ---------------------------------------------------------------------------
  // The executors

  type Pool = map<string, ParallelExecutor<Task>>

  ghost function Objects(ex: Pool): set<object>
  {
    set id | id in ex :: ex[id]
  }

  ghost function ViewOf(e: ParallelExecutor<Task>): View
    reads e
  {
    View(e.queue, e.inFlight, e.maxConcurrency)
  }

  /** `vs` is the view of every executor in the pool. */
  ghost predicate Mirrors(ex: Pool, vs: map<string, View>)
    reads Objects(ex)
  {
    && vs.Keys == ex.Keys
    && (forall id :: id in ex ==> ViewOf(ex[id]) == vs[id])
  }

  /** No executor serves two ids. */
  ghost predicate Distinct(ex: Pool)
  {
    forall a, b :: a in ex && b in ex && a != b ==> ex[a] != ex[b]
  }

  /** `modelExecutors`: one distinct executor per resolving selected id, with that model's limit. */
  ghost predicate Pooled(ex: Pool, s: Setup)
  {
    && Distinct(ex)
    && (forall id :: id in ex <==> id in s.form.modelIds && Resolves(s.models, id))
    && (forall id :: id in ex ==> ex[id].maxConcurrency == ConcurrencyLimit(FindModel(s.models, id).value))
  }

  /** Every executor of the pool satisfies its own invariant. */
  ghost predicate AllValid(ex: Pool)
    reads Objects(ex)
  {
    forall id :: id in ex ==> ex[id].Valid()
  }

  /** The executors' construction loop; a repeated id gets a new executor in place of the old one. */
  method MakeExecutors(s: Setup) returns (ex: Pool)
    ensures Pooled(ex, s) && AllValid(ex)
    ensures forall id :: id in ex ==> fresh(ex[id]) && ex[id].inFlight == multiset{} && ex[id].queue == []
  {
    ex := map[];
    var ids := s.form.modelIds;
    for i := 0 to |ids|
      invariant Pooled(ex, s.(form := s.form.(modelIds := ids[..i]))) && AllValid(ex)
      invariant forall id :: id in ex ==> fresh(ex[id]) && ex[id].inFlight == multiset{} && ex[id].queue == []
    {
      var model := FindModel(s.models, ids[i]);
      if model.Some? {
        var e := new ParallelExecutor(ConcurrencyLimit(model.value));
        ex := ex[ids[i] := e];
      }
      assert ids[..i + 1] == ids[..i] + [ids[i]];
    }
    assert ids[..|ids|] == ids;
  }

  /** One executor's view changed: the pool mirrors the updated views. */
  lemma Repack(ex: Pool, vs: map<string, View>, k: string, v: View)
    requires vs.Keys == ex.Keys && k in ex
    requires ViewOf(ex[k]) == v
    requires forall id :: id in ex && id != k ==> ViewOf(ex[id]) == vs[id]
    ensures Mirrors(ex, vs[k := v])
  {
  }

  /** `executor.execute(task)`: only that executor's view changes, by the Submit event. */
  method Submit(ex: Pool, ghost vs: map<string, View>, task: Task)
    requires Distinct(ex) && AllValid(ex) && Mirrors(ex, vs) && task.modelId in ex
    modifies ex[task.modelId]
    ensures AllValid(ex)
    ensures ViewOf(ex[task.modelId]) == SubmitView(vs[task.modelId], task)
    ensures forall id :: id in ex && id != task.modelId ==> ViewOf(ex[id]) == vs[id]
  {
    var e := ex[task.modelId];
    e.Execute(task);
  }

  /** A running task's `finally` block: only that executor's view changes, by the Finish event. */
  method Settle(ex: Pool, ghost vs: map<string, View>, id: string, t: Task)
    requires Distinct(ex) && AllValid(ex) && Mirrors(ex, vs) && id in ex && t in ex[id].inFlight
    modifies ex[id]
    ensures AllValid(ex)
    ensures ViewOf(ex[id]) == FinishView(vs[id], t)
    ensures forall id2 :: id2 in ex && id2 != id ==> ViewOf(ex[id2]) == vs[id2]
    ensures ex[id].maxConcurrency >= 1
  {
    var e := ex[id];
    assert e.running >= 1;
    e.Finish(t);
  }

  /** The bookkeeping of the inner loop: the next id is submitted exactly when it resolves. */
  lemma CellStep(ids: seq<string>, models: seq<LLMModel>, i: nat, j: nat, pairs: seq<(nat, string)>)
    requires j < |ids|
    requires pairs == Pairs(i, ids, models) + RowPairs(i, ids[..j], models)
    ensures Resolves(models, ids[j]) ==>
              pairs + [(i, ids[j])] == Pairs(i, ids, models) + RowPairs(i, ids[..j + 1], models)
    ensures !Resolves(models, ids[j]) ==> pairs == Pairs(i, ids, models) + RowPairs(i, ids[..j + 1], models)
  {
    assert ids[..j + 1][..j] == ids[..j];
  }

  /** The inner loop's bookkeeping at its ends. */
  lemma RowEnds(ids: seq<string>, models: seq<LLMModel>, i: nat)
    ensures Pairs(i, ids, models) + RowPairs(i, ids[..0], models) == Pairs(i, ids, models)
    ensures Pairs(i, ids, models) + RowPairs(i, ids[..|ids|], models) == Pairs(i + 1, ids, models)
  {
    assert ids[..|ids|] == ids;
  }

  /** Idle executors and no tasks: nothing waits and nothing is unsettled. */
  lemma PlacedInitially(vs: map<string, View>)
    requires forall id :: id in vs ==> vs[id].queue == [] && vs[id].inFlight == multiset{}
    ensures Placed(vs, [], {})
  {
  }

  /** Submitting the next task keeps the pool consistent and every task's placement exact. */
  method SubmitTask(ex: Pool, ghost vs: map<string, View>, tasks: seq<Task>, task: Task)
    returns (ghost vs': map<string, View>)
    requires Distinct(ex) && AllValid(ex) && Mirrors(ex, vs) && Placed(vs, tasks, {})
    requires task.index == |tasks| && task.modelId in ex
    modifies ex[task.modelId]
    ensures AllValid(ex) && Mirrors(ex, vs') && Placed(vs', tasks + [task], {})
  {
    var id := task.modelId;
    PlacedAfterSubmit(vs, tasks, task);
    Submit(ex, vs, task);
    Repack(ex, vs, id, SubmitView(vs[id], task));
    vs' := vs[id := SubmitView(vs[id], task)];
  }

  /** One pass of the inner loop's body: a resolving id's task is created and submitted. */
  method SubmitCell(ex: Pool, s: Setup, ghost vs: map<string, View>, tasks: seq<Task>,
                    ghost pairs: seq<(nat, string)>, i: nat, j: nat)
    returns (tasks': seq<Task>, ghost vs': map<string, View>, ghost pairs': seq<(nat, string)>)
    requires Pooled(ex, s) && j < |s.form.modelIds|
    requires pairs == Pairs(i, s.form.modelIds, s.models) + RowPairs(i, s.form.modelIds[..j], s.models)
    requires tasks == Number(pairs)
    requires AllValid(ex) && Mirrors(ex, vs) && Placed(vs, tasks, {})
    modifies Objects(ex)
    ensures pairs' == Pairs(i, s.form.modelIds, s.models) + RowPairs(i, s.form.modelIds[..j + 1], s.models)
    ensures tasks' == Number(pairs')
    ensures AllValid(ex) && Mirrors(ex, vs') && Placed(vs', tasks', {})
  {
    var id := s.form.modelIds[j];
    CellStep(s.form.modelIds, s.models, i, j, pairs);
    tasks', vs', pairs' := tasks, vs, pairs;
    var model := FindModel(s.models, id);
    if model.Some? && id in ex {
      var task := Task(|tasks|, i, id);
      vs' := SubmitTask(ex, vs, tasks, task);
      NumberSnoc(pairs, (i, id));
      pairs' := pairs + [(i, id)];
      tasks' := tasks + [task];
    }
  }

  /** One row of the matrix: every id of the run is tried against item `i`. */
  method SubmitRow(ex: Pool, s: Setup, ghost vs: map<string, View>, tasks: seq<Task>,
                   ghost pairs: seq<(nat, string)>, i: nat)
    returns (tasks': seq<Task>, ghost vs': map<string, View>, ghost pairs': seq<(nat, string)>)
    requires Pooled(ex, s)
    requires pairs == Pairs(i, s.form.modelIds, s.models) && tasks == Number(pairs)
    requires AllValid(ex) && Mirrors(ex, vs) && Placed(vs, tasks, {})
    modifies Objects(ex)
    ensures pairs' == Pairs(i + 1, s.form.modelIds, s.models) && tasks' == Number(pairs')
    ensures AllValid(ex) && Mirrors(ex, vs') && Placed(vs', tasks', {})
  {
    var ids := s.form.modelIds;
    RowEnds(ids, s.models, i);
    tasks', vs', pairs' := tasks, vs, pairs;
    for j := 0 to |ids|
      invariant pairs' == Pairs(i, ids, s.models) + RowPairs(i, ids[..j], s.models)
      invariant tasks' == Number(pairs')
      invariant AllValid(ex) && Mirrors(ex, vs') && Placed(vs', tasks', {})
    {
      tasks', vs', pairs' := SubmitCell(ex, s, vs', tasks', pairs', i, j);
    }
  }

  /**
    Both loops of the submission: for every item and every id of the run whose
    model is configured, a task numbered in creation order is handed to that
    model's executor. The tasks are exactly the matrix, and each one is either
    running or waiting in its executor.
  */
  method SubmitAll(ex: Pool, s: Setup) returns (tasks: seq<Task>, ghost vs: map<string, View>)
    requires Pooled(ex, s) && AllValid(ex)
    requires forall id :: id in ex ==> ex[id].inFlight == multiset{} && ex[id].queue == []
    modifies Objects(ex)
    ensures tasks == TaskMatrix(|s.items|, s.form.modelIds, s.models)
    ensures AllValid(ex) && Mirrors(ex, vs) && Placed(vs, tasks, {})
  {
    vs := map id | id in ex :: ViewOf(ex[id]);
    PlacedInitially(vs);
    tasks := [];
    ghost var pairs: seq<(nat, string)> := [];
    for i := 0 to |s.items|
      invariant pairs == Pairs(i, s.form.modelIds, s.models) && tasks == Number(pairs)
      invariant AllValid(ex) && Mirrors(ex, vs) && Placed(vs, tasks, {})
    {
      tasks, vs, pairs := SubmitRow(ex, s, vs, tasks, pairs, i);
    }
  }

  // ---------------------------------------------------------------------------
  // Running one task

  /**
    A task's body: the completion and its scores, or the `catch` block's error
    entry, and whether the task's promise rejects.
  */
  method RunTask(t: Task, s: Setup) returns (r: EvaluationResultItem, rejected: bool)
    requires WellFormed(t, s)
    ensures r == Outcome(t, s)
    ensures rejected <==> s.env.fault(t.index).Escaped?
  {
    var item := s.items[t.itemIndex];
    var model := ModelOf(t, s);
    var input := InputText(item.input, s.env.stringify);
    match s.env.fault(t.index)
    case NoFault =>
      var reply := s.env.complete(t.index, model, s.form.systemPrompt, input);
      var scores := CalculateScores(input, reply.content, item.reference, s.form.metrics,
                                    s.judge, s.form.customCode, s.env.scoring);
      assert scores == Scores(input, reply.content, item.reference, s);
      r := EvaluationResultItem(item.id, model.id, input, reply.content, item.reference,
                                scores, reply.latency);
      rejected := false;
    case Caught(message) =>
      var zeros := map m | m in s.form.metrics :: Num(0.0);
      r := EvaluationResultItem(item.id, model.id, input, "[ERROR]: " + message,
                                item.reference, zeros, 0.0);
      rejected := false;
    case Escaped(message) =>
      var zeros := map m | m in s.form.metrics :: Num(0.0);
      r := EvaluationResultItem(item.id, model.id, input, "[ERROR]: " + message,
                                item.reference, zeros, 0.0);
      rejected := true;
  }

  // ---------------------------------------------------------------------------
  // The run's record while tasks settle

  /** `{ progress: completedCount, results: [...allResults] }`. */
  function ProgressPatch(results: seq<EvaluationResultItem>): RunPatch
  {
    NoChanges.(progress := Some(|results|), results := Some(results))
  }

  function StatusPatch(status: RunStatus): RunPatch
  {
    NoChanges.(status := Some(status))
  }

  /** Some settled task's failure escaped its body, so that `Promise.all` rejects. */
  predicate AnyEscaped(ts: seq<Task>, s: Setup)
  {
    exists k :: 0 <= k < |ts| && s.env.fault(ts[k].index).Escaped?
  }

  /**
    Everything the run's record has received so far: the latest progress
    update, once there is a result, and the failure status, once a failure
    escaped. The two kinds of update touch different fields, so their order
    does not matter.
  */
  function Current(results: seq<EvaluationResultItem>, failed: bool): RunPatch
  {
    NoChanges.(status := if failed then Some(Failed) else None,
               progress := if results == [] then None else Some(|results|),
               results := if results == [] then None else Some(results))
  }

  /** The record at the end: `Promise.all` rejected, resolved, or is still waiting. */
  function FinalPatch(results: seq<EvaluationResultItem>, failed: bool, drained: bool): RunPatch
  {
    Current(results, failed).(status := if failed then Some(Failed) else if drained then Some(Completed) else None)
  }

  /** A progress update after the record so far is the record with one more result. */
  lemma RecordResult(runs: seq<EvaluationRun>, id: string, results: seq<EvaluationResultItem>,
                     failed: bool, x: EvaluationResultItem)
    ensures UpdateRun(UpdateRun(runs, id, Current(results, failed)), id, ProgressPatch(results + [x])) ==
            UpdateRun(runs, id, Current(results + [x], failed))
  {
    UpdateRunTwice(runs, id, Current(results, failed), ProgressPatch(results + [x]));
    assert Then(Current(results, failed), ProgressPatch(results + [x])) == Current(results + [x], failed);
  }

  /** The first escaped failure marks the run failed. */
  lemma RecordFailure(runs: seq<EvaluationRun>, id: string, results: seq<EvaluationResultItem>)
    ensures UpdateRun(UpdateRun(runs, id, Current(results, false)), id, StatusPatch(Failed)) ==
            UpdateRun(runs, id, Current(results, true))
  {
    UpdateRunTwice(runs, id, Current(results, false), StatusPatch(Failed));
    assert Then(Current(results, false), StatusPatch(Failed)) == Current(results, true);
  }

  /** The resolved `Promise.all` of a run without failures marks it completed. */
  lemma RecordCompletion(runs: seq<EvaluationRun>, id: string, results: seq<EvaluationResultItem>)
    ensures UpdateRun(UpdateRun(runs, id, Current(results, false)), id, StatusPatch(Completed)) ==
            UpdateRun(runs, id, FinalPatch(results, false, true))
  {
    UpdateRunTwice(runs, id, Current(results, false), StatusPatch(Completed));
    assert Then(Current(results, false), StatusPatch(Completed)) == FinalPatch(results, false, true);
  }

  /** Task `k` is the `k`-th call, for a model that exists. */
  predicate Numbered(tasks: seq<Task>, s: Setup)
  {
    forall k :: 0 <= k < |tasks| ==> tasks[k].index == k && WellFormed(tasks[k], s)
  }

  lemma MatrixNumbered(s: Setup)
    ensures Numbered(TaskMatrix(|s.items|, s.form.modelIds, s.models), s)
  {
  }

  /**
    What the settled tasks account for: the settled positions are those of
    the settled tasks, each settled once, only tasks with a positive limit
    settle, the results are theirs in settling order, and `failed` says
    whether a failure escaped.
  */
  ghost predicate Ledger(tasks: seq<Task>, s: Setup, done: set<nat>, settled: seq<Task>,
                         results: seq<EvaluationResultItem>, failed: bool)
  {
    && (forall k :: k in done ==> k < |tasks| && tasks[k] in settled)
    && (forall t :: t in settled ==>
          t.index < |tasks| && tasks[t.index] == t && t.index in done &&
          WellFormed(t, s) && LimitOf(t, s) >= 1)
    && NoDup(settled)
    && results == Outcomes(settled, s)
    && (failed <==> AnyEscaped(settled, s))
  }

  lemma LedgerInitially(tasks: seq<Task>, s: Setup)
    ensures Ledger(tasks, s, {}, [], [], false)
  {
  }

  lemma NoDupSnoc<T>(xs: seq<T>, x: T)
    requires NoDup(xs) && x !in xs
    ensures NoDup(xs + [x])
  {
    var ys := xs + [x];
    forall i, j | 0 <= i < j < |ys| ensures ys[i] != ys[j] {
      if j == |xs| {
        assert ys[i] in xs;
      }
    }
  }

  lemma EscapedSnoc(ts: seq<Task>, t: Task, s: Setup)
    ensures AnyEscaped(ts + [t], s) <==> AnyEscaped(ts, s) || s.env.fault(t.index).Escaped?
  {
    var us := ts + [t];
    if AnyEscaped(ts, s) {
      var k :| 0 <= k < |ts| && s.env.fault(ts[k].index).Escaped?;
      assert us[k] == ts[k];
    }
    if s.env.fault(t.index).Escaped? {
      assert us[|ts|] == t;
    }
    if AnyEscaped(us, s) {
      var k :| 0 <= k < |us| && s.env.fault(us[k].index).Escaped?;
      if k < |ts| {
        assert ts[k] == us[k];
      }
    }
  }

  lemma OutcomesSnoc(ts: seq<Task>, t: Task, s: Setup)
    requires forall u :: u in ts ==> WellFormed(u, s)
    requires WellFormed(t, s)
    ensures Outcomes(ts + [t], s) == Outcomes(ts, s) + [Outcome(t, s)]
  {
    assert (ts + [t])[..|ts|] == ts;
  }

  /** Settling an unsettled task with a positive limit records its outcome. */
  lemma LedgerStep(tasks: seq<Task>, s: Setup, done: set<nat>, settled: seq<Task>,
                   results: seq<EvaluationResultItem>, failed: bool, t: Task)
    requires Numbered(tasks, s) && Ledger(tasks, s, done, settled, results, failed)
    requires t.index !in done && t.index < |tasks| && tasks[t.index] == t
    requires WellFormed(t, s) && LimitOf(t, s) >= 1
    ensures |settled| < |tasks|
    ensures Ledger(tasks, s, done + {t.index}, settled + [t],
                   results + [Outcome(t, s)], failed || s.env.fault(t.index).Escaped?)
  {
    assert t !in settled;
    NoDupSnoc(settled, t);
    EscapedSnoc(settled, t, s);
    OutcomesSnoc(settled, t, s);
    NumberedNoDup(tasks, s);
    SettledCount(tasks, settled);
  }

  /**
    When nothing runs any more, exactly the tasks of limits below one are
    unsettled: they are the ones that never settle, and every task settled
    exactly when every limit is positive.
  */
  lemma LedgerEnd(tasks: seq<Task>, s: Setup, done: set<nat>, settled: seq<Task>,
                  results: seq<EvaluationResultItem>, failed: bool)
    requires Numbered(tasks, s) && Ledger(tasks, s, done, settled, results, failed)
    requires forall k :: 0 <= k < |tasks| && k !in done ==> LimitOf(tasks[k], s) <= 0
    ensures forall k :: 0 <= k < |tasks| ==> (tasks[k] in settled <==> LimitOf(tasks[k], s) >= 1)
    ensures (forall k :: 0 <= k < |tasks| ==> k in done) <==>
            forall k :: 0 <= k < |tasks| ==> LimitOf(tasks[k], s) >= 1
  {
    forall k | 0 <= k < |tasks| && tasks[k] in settled ensures LimitOf(tasks[k], s) >= 1 {
    }
  }

  /** A running task is unsettled, sits at its own position, and its model's limit is at least one. */
  lemma RunningTask(ex: Pool, s: Setup, vs: map<string, View>, tasks: seq<Task>, done: set<nat>,
                    id: string, t: Task)
    requires Pooled(ex, s) && Numbered(tasks, s) && AllValid(ex) && Mirrors(ex, vs) && Placed(vs, tasks, done)
    requires id in ex && t in ex[id].inFlight
    ensures t.index !in done && t.index < |tasks| && tasks[t.index] == t
    ensures t.modelId == id && WellFormed(t, s) && LimitOf(t, s) >= 1
  {
    assert WaitsIn(vs[id], t);
    assert ex[id].running >= 1;
  }

  /** Settling one running task: its executor moves on, and its position is settled. */
  method SettleTask(ex: Pool, s: Setup, ghost vs: map<string, View>, tasks: seq<Task>,
                    ghost done: set<nat>, id: string, t: Task)
    returns (ghost vs': map<string, View>)
    requires Pooled(ex, s) && AllValid(ex) && Mirrors(ex, vs) && Placed(vs, tasks, done)
    requires id in ex && t in ex[id].inFlight
    modifies ex[id]
    ensures AllValid(ex) && Mirrors(ex, vs') && Placed(vs', tasks, done + {t.index})
  {
    PlacedAfterFinish(vs, tasks, done, id, t);
    Settle(ex, vs, id, t);
    Repack(ex, vs, id, FinishView(vs[id], t));
    vs' := vs[id := FinishView(vs[id], t)];
  }

  /** An executor with nothing running and a waiting task has a limit below one. */
  lemma IdleQueued(e: ParallelExecutor<Task>)
    requires e.Valid() && e.inFlight == multiset{}
    ensures e.queue != [] ==> e.maxConcurrency <= 0
  {
  }

  /** Each view's limit is its model's, and the model exists. */
  ghost predicate Limits(vs: map<string, View>, s: Setup)
  {
    forall id :: id in vs ==> Resolves(s.models, id) && vs[id].limit == ConcurrencyLimit(FindModel(s.models, id).value)
  }

  /** The views of an idle pool: nothing runs, and a queue waits only behind a limit below one. */
  lemma IdlePool(ex: Pool, s: Setup, vs: map<string, View>)
    requires Pooled(ex, s) && AllValid(ex) && Mirrors(ex, vs)
    requires forall id :: id in ex ==> ex[id].inFlight == multiset{}
    ensures Limits(vs, s)
    ensures forall id :: id in vs ==> vs[id].inFlight == multiset{} && (vs[id].queue != [] ==> vs[id].limit <= 0)
    ensures (forall id :: id in ex ==> ex[id].queue == []) <==> (forall id :: id in vs ==> vs[id].queue == [])
  {
    forall id | id in ex ensures ex[id].queue != [] ==> ex[id].maxConcurrency <= 0 {
      IdleQueued(ex[id]);
    }
  }

  /** With nothing running, the unsettled tasks are queued behind limits below one. */
  lemma StuckUnsettled(vs: map<string, View>, s: Setup, tasks: seq<Task>, done: set<nat>)
    requires Placed(vs, tasks, done) && Limits(vs, s)
    requires forall id :: id in vs ==> vs[id].inFlight == multiset{} && (vs[id].queue != [] ==> vs[id].limit <= 0)
    ensures forall k :: 0 <= k < |tasks| && k !in done ==>
              Resolves(s.models, tasks[k].modelId) && LimitOf(tasks[k], s) <= 0
  {
    forall k | 0 <= k < |tasks| && k !in done
      ensures Resolves(s.models, tasks[k].modelId) && LimitOf(tasks[k], s) <= 0
    {
      var id := tasks[k].modelId;
      assert WaitsIn(vs[id], tasks[k]);
      assert tasks[k] in vs[id].queue;
    }
  }

  /** With nothing running, an unsettled task leaves its executor's queue non-empty. */
  lemma UnsettledQueued(vs: map<string, View>, tasks: seq<Task>, done: set<nat>, k: nat)
    requires Placed(vs, tasks, done)
    requires forall id :: id in vs ==> vs[id].inFlight == multiset{}
    requires k < |tasks| && k !in done
    ensures tasks[k].modelId in vs && vs[tasks[k].modelId].queue != []
  {
    assert WaitsIn(vs[tasks[k].modelId], tasks[k]);
  }

  /** A task still queued anywhere is unsettled. */
  lemma QueuedUnsettled(vs: map<string, View>, tasks: seq<Task>, done: set<nat>, id: string)
    requires Placed(vs, tasks, done)
    requires id in vs && vs[id].queue != []
    ensures vs[id].queue[0].index < |tasks| && vs[id].queue[0].index !in done
  {
    assert WaitsIn(vs[id], vs[id].queue[0]);
  }

  /** With nothing running, the queues are all empty exactly when every position is settled. */
  lemma Stuck(vs: map<string, View>, tasks: seq<Task>, done: set<nat>)
    requires Placed(vs, tasks, done)
    requires forall id :: id in vs ==> vs[id].inFlight == multiset{}
    ensures (forall id :: id in vs ==> vs[id].queue == []) <==> (forall k :: 0 <= k < |tasks| ==> k in done)
  {
    if exists k :: 0 <= k < |tasks| && k !in done {
      var k :| 0 <= k < |tasks| && k !in done;
      UnsettledQueued(vs, tasks, done, k);
    }
    if exists id :: id in vs && vs[id].queue != [] {
      var id :| id in vs && vs[id].queue != [];
      QueuedUnsettled(vs, tasks, done, id);
    }
  }

  /**
    A task's body and what follows it: the outcome joins the results and the
    run's progress, and, when it is the first task whose promise rejects, the
    run is marked failed as well.
  */
  method Record(tasks: seq<Task>, s: Setup, ghost done: set<nat>, ghost settled: seq<Task>,
                runs0: seq<EvaluationRun>, runId: string, runs: seq<EvaluationRun>,
                results: seq<EvaluationResultItem>, failed: bool, t: Task)
    returns (runs': seq<EvaluationRun>, results': seq<EvaluationResultItem>, failed': bool)
    requires Numbered(tasks, s) && Ledger(tasks, s, done, settled, results, failed)
    requires runs == UpdateRun(runs0, runId, Current(results, failed))
    requires t.index !in done && t.index < |tasks| && tasks[t.index] == t
    requires WellFormed(t, s) && LimitOf(t, s) >= 1
    ensures |settled| < |tasks|
    ensures Ledger(tasks, s, done + {t.index}, settled + [t], results', failed')
    ensures runs' == UpdateRun(runs0, runId, Current(results', failed'))
  {
    var r, rejected := RunTask(t, s);
    LedgerStep(tasks, s, done, settled, results, failed, t);
    RecordResult(runs0, runId, results, failed, r);
    results' := results + [r];
    runs' := UpdateRun(runs, runId, ProgressPatch(results'));
    failed' := failed;
    if rejected && !failed {
      RecordFailure(runs0, runId, results');
      failed' := true;
      runs' := UpdateRun(runs', runId, StatusPatch(Failed));
    }
  }

  /**
    When nothing runs any more: the settled tasks are exactly those with a
    positive limit, and every queue is empty exactly when every limit is
    positive.
  */
  lemma Finished(ex: Pool, s: Setup, vs: map<string, View>, tasks: seq<Task>, done: set<nat>,
                 settled: seq<Task>, results: seq<EvaluationResultItem>, failed: bool)
    requires Pooled(ex, s) && Numbered(tasks, s) && AllValid(ex) && Mirrors(ex, vs) && Placed(vs, tasks, done)
    requires Ledger(tasks, s, done, settled, results, failed)
    requires forall id :: id in ex ==> ex[id].inFlight == multiset{}
    ensures NoDup(settled)
    ensures forall t :: t in settled ==> t in tasks
    ensures forall k :: 0 <= k < |tasks| ==> (tasks[k] in settled <==> LimitOf(tasks[k], s) >= 1)
    ensures results == Outcomes(settled, s)
    ensures failed <==> AnyEscaped(settled, s)
    ensures (forall id :: id in ex ==> ex[id].queue == []) <==>
            forall k :: 0 <= k < |tasks| ==> LimitOf(tasks[k], s) >= 1
  {
    IdlePool(ex, s, vs);
    StuckUnsettled(vs, s, tasks, done);
    Stuck(vs, tasks, done);
    LedgerEnd(tasks, s, done, settled, results, failed);
  }

  /** The `:|` choice of the next task to settle: some executor's running task. */
  method PickRunning(ex: Pool) returns (id: string, t: Task)
    requires exists id :: id in ex && ex[id].inFlight != multiset{}
    ensures id in ex && t in ex[id].inFlight
  {
    id :| id in ex && ex[id].inFlight != multiset{};
    t :| t in ex[id].inFlight;
  }

  /** One settling event: the executor moves on and that task's outcome is recorded. */
  method Step(ex: Pool, s: Setup, tasks: seq<Task>, ghost views: map<string, View>,
              ghost done: set<nat>, ghost settled: seq<Task>,
              runs0: seq<EvaluationRun>, runId: string, runs: seq<EvaluationRun>,
              results: seq<EvaluationResultItem>, failed: bool, id: string, t: Task)
    returns (runs': seq<EvaluationRun>, results': seq<EvaluationResultItem>, failed': bool,
             ghost views': map<string, View>, ghost done': set<nat>, ghost settled': seq<Task>)
    requires Pooled(ex, s) && Numbered(tasks, s) && AllValid(ex) && Mirrors(ex, views) && Placed(views, tasks, done)
    requires Ledger(tasks, s, done, settled, results, failed)
    requires runs == UpdateRun(runs0, runId, Current(results, failed))
    requires id in ex && t in ex[id].inFlight
    modifies ex[id]
    ensures AllValid(ex) && Mirrors(ex, views') && Placed(views', tasks, done')
    ensures Ledger(tasks, s, done', settled', results', failed')
    ensures runs' == UpdateRun(runs0, runId, Current(results', failed'))
    ensures |settled| < |tasks| && |settled'| == |settled| + 1
  {
    RunningTask(ex, s, views, tasks, done, id, t);
    runs', results', failed' := Record(tasks, s, done, settled, runs0, runId, runs, results, failed, t);
    views' := SettleTask(ex, s, views, tasks, done, id, t);
    done' := done + {t.index};
    settled' := settled + [t];
  }

  /**
    `await Promise.all(evaluationTasks)`: running tasks settle one at a time,
    in an order the model does not fix, until none runs. Each settled task's
    result extends the results and the run's progress, and the first failure
    that escapes marks the run failed. The tasks that settle are exactly those
    whose executor's limit is at least one.
  */
  method Drain(ex: Pool, s: Setup, tasks: seq<Task>, ghost vs: map<string, View>,
               runs0: seq<EvaluationRun>, runId: string)
    returns (runs: seq<EvaluationRun>, results: seq<EvaluationResultItem>, failed: bool,
             drained: bool, ghost settled: seq<Task>)
    requires Pooled(ex, s) && Numbered(tasks, s)
    requires AllValid(ex) && Mirrors(ex, vs) && Placed(vs, tasks, {})
    modifies Objects(ex)
    ensures NoDup(settled)
    ensures forall t :: t in settled ==> t in tasks
    ensures forall k :: 0 <= k < |tasks| ==> (tasks[k] in settled <==> LimitOf(tasks[k], s) >= 1)
    ensures results == Outcomes(settled, s)
    ensures failed <==> AnyEscaped(settled, s)
    ensures drained <==> forall k :: 0 <= k < |tasks| ==> LimitOf(tasks[k], s) >= 1
    ensures runs == UpdateRun(runs0, runId, Current(results, failed))
  {
    runs, results, failed := runs0, [], false;
    settled := [];
    ghost var views := vs;
    ghost var done: set<nat> := {};
    UpdateRunNoChanges(runs0, runId);
    LedgerInitially(tasks, s);
    while exists id :: id in ex && ex[id].inFlight != multiset{}
      invariant AllValid(ex) && Mirrors(ex, views) && Placed(views, tasks, done)
      invariant Ledger(tasks, s, done, settled, results, failed)
      invariant runs == UpdateRun(runs0, runId, Current(results, failed))
      decreases |tasks| - |settled|
    {
      var id, t := PickRunning(ex);
      runs, results, failed, views, done, settled :=
        Step(ex, s, tasks, views, done, settled, runs0, runId, runs, results, failed, id, t);
    }
    Finished(ex, s, views, tasks, done, settled, results, failed);
    drained := forall id :: id in ex ==> ex[id].queue == [];
  }

  // ---------------------------------------------------------------------------
  // The whole run

  /** What the tasks of a run read; the judge is `models.find(m => m.id === judgeModelId)`. */
  function SetupOf(dataset: Dataset, models: seq<LLMModel>, form: RunForm, env: RunOracles): Setup
  {
    Setup(dataset.items, models, form, FindModel(models, form.judgeModelId), env)
  }

  /** Every task of the matrix settles: every model's limit admits a task. */
  predicate AllAdmitted(tasks: seq<Task>, s: Setup)
    requires forall k :: 0 <= k < |tasks| ==> Resolves(s.models, tasks[k].modelId)
  {
    forall k :: 0 <= k < |tasks| ==> LimitOf(tasks[k], s) >= 1
  }

  /** A rejected or a still waiting `Promise.all` adds nothing at the end. */
  lemma FinalPatchUnchanged(results: seq<EvaluationResultItem>, failed: bool, drained: bool)
    requires failed || !drained
    ensures FinalPatch(results, failed, drained) == Current(results, failed)
  {
  }

  /**
    After `Promise.all`: a run whose tasks all settled without an escaped
    failure is marked completed; otherwise it keeps what the tasks wrote.
  */
  method Conclude(base: seq<EvaluationRun>, runId: string, runs: seq<EvaluationRun>,
                  results: seq<EvaluationResultItem>, failed: bool, drained: bool)
    returns (runs': seq<EvaluationRun>)
    requires runs == UpdateRun(base, runId, Current(results, failed))
    ensures runs' == UpdateRun(base, runId, FinalPatch(results, failed, drained))
  {
    if !failed && drained {
      RecordCompletion(base, runId, results);
      runs' := UpdateRun(runs, runId, StatusPatch(Completed));
    } else {
      FinalPatchUnchanged(results, failed, drained);
      runs' := runs;
    }
  }

  /**
    From the executors to `Promise.all`: one fresh executor per selected model,
    the matrix submitted, and the running tasks settled until none runs.
  */
  method RunMatrix(s: Setup, runs0: seq<EvaluationRun>, runId: string)
    returns (runs: seq<EvaluationRun>, tasks: seq<Task>, results: seq<EvaluationResultItem>,
             failed: bool, drained: bool, ghost settled: seq<Task>)
    ensures tasks == TaskMatrix(|s.items|, s.form.modelIds, s.models)
    ensures NoDup(settled)
    ensures forall t :: t in settled ==> t in tasks
    ensures forall k :: 0 <= k < |tasks| ==> (tasks[k] in settled <==> LimitOf(tasks[k], s) >= 1)
    ensures results == Outcomes(settled, s)
    ensures failed <==> AnyEscaped(settled, s)
    ensures drained <==> forall k :: 0 <= k < |tasks| ==> LimitOf(tasks[k], s) >= 1
    ensures runs == UpdateRun(runs0, runId, Current(results, failed))
  {
    var ex := MakeExecutors(s);
    ghost var vs;
    tasks, vs := SubmitAll(ex, s);
    MatrixNumbered(s);
    runs, results, failed, drained, settled := Drain(ex, s, tasks, vs, runs0, runId);
  }

  /**
    Updating a freshly prepended run by its own id, with a patch that leaves
    identity, snapshot and total alone, keeps that run first with those fields
    and leaves every run with another id where it was, one place further on.
  */
  lemma UpdatePrepended(run: EvaluationRun, runs0: seq<EvaluationRun>, p: RunPatch)
    requires p.id.None? && p.configSnapshot.None? && p.total.None?
    ensures var runs := UpdateRun(Prepend(run, runs0), run.id, p);
            && |runs| == |runs0| + 1 && runs[0].id == run.id && runs[0].total == run.total
            && runs[0].configSnapshot == run.configSnapshot
            && forall i :: 0 <= i < |runs0| && runs0[i].id != run.id ==> runs[i + 1] == runs0[i]
  {
    var base := Prepend(run, runs0);
    assert forall i :: 0 <= i < |runs0| ==> base[i + 1] == runs0[i];
  }

  /**
    The selected case of `startEvaluation`: the new run is prepended to the
    runs, an executor is made per selected model, the matrix of tasks is
    submitted, the running tasks settle until none runs, and the run is
    concluded.
  */
  method Evaluate(dataset: Dataset, models: seq<LLMModel>, runs0: seq<EvaluationRun>,
                  form: RunForm, ids: FreshValues, env: RunOracles)
    returns (runs: seq<EvaluationRun>, tasks: seq<Task>, ghost settled: seq<Task>)
    ensures var s := SetupOf(dataset, models, form, env);
            && tasks == TaskMatrix(|dataset.items|, form.modelIds, models)
            && NoDup(settled) && (forall t :: t in settled ==> t in tasks)
            && (forall k :: 0 <= k < |tasks| ==> (tasks[k] in settled <==> LimitOf(tasks[k], s) >= 1))
            && runs == UpdateRun(Prepend(NewRun(dataset, form, ids), runs0), ids.runId,
                                 FinalPatch(Outcomes(settled, s), AnyEscaped(settled, s), AllAdmitted(tasks, s)))
    ensures |runs| == |runs0| + 1 && runs[0].id == ids.runId
    ensures runs[0].total == |dataset.items| * |form.modelIds| && runs[0].configSnapshot == Snapshot(form, ids)
    ensures forall i :: 0 <= i < |runs0| && runs0[i].id != ids.runId ==> runs[i + 1] == runs0[i]
  {
    var base := Prepend(NewRun(dataset, form, ids), runs0);
    var s := SetupOf(dataset, models, form, env);
    var results, failed, drained;
    runs, tasks, results, failed, drained, settled := RunMatrix(s, base, ids.runId);
    runs := Conclude(base, ids.runId, runs, results, failed, drained);
    UpdatePrepended(NewRun(dataset, form, ids), runs0, FinalPatch(results, failed, drained));
  }

  /**
    `startEvaluation`: nothing happens unless a dataset, a model and a metric
    are selected. Otherwise the run holds the results of the settled tasks in
    settling order and their number as its progress, and is marked completed
    when every task settled and no failure escaped.
  */
  method StartEvaluation(datasets: seq<Dataset>, models: seq<LLMModel>, runs0: seq<EvaluationRun>,
                         form: RunForm, ids: FreshValues, env: RunOracles)
    returns (runs: seq<EvaluationRun>, tasks: seq<Task>, ghost settled: seq<Task>)
    ensures CheckStart(datasets, form).None? ==> runs == runs0 && tasks == [] && settled == []
    ensures CheckStart(datasets, form).Some? ==>
              var dataset := CheckStart(datasets, form).value;
              var s := SetupOf(dataset, models, form, env);
              && tasks == TaskMatrix(|dataset.items|, form.modelIds, models)
              && NoDup(settled) && (forall t :: t in settled ==> t in tasks)
              && (forall k :: 0 <= k < |tasks| ==> (tasks[k] in settled <==> LimitOf(tasks[k], s) >= 1))
              && runs == UpdateRun(Prepend(NewRun(dataset, form, ids), runs0), ids.runId,
                                   FinalPatch(Outcomes(settled, s), AnyEscaped(settled, s), AllAdmitted(tasks, s)))
    ensures CheckStart(datasets, form).None? ==> runs == runs0 && tasks == []
    ensures CheckStart(datasets, form).Some? ==>
              && tasks == TaskMatrix(|CheckStart(datasets, form).value.items|, form.modelIds, models)
              && |runs| == |runs0| + 1 && runs[0].id == ids.runId
              && runs[0].total == |CheckStart(datasets, form).value.items| * |form.modelIds|
              && runs[0].configSnapshot == Snapshot(form, ids)
              && (forall i :: 0 <= i < |runs0| && runs0[i].id != ids.runId ==> runs[i + 1] == runs0[i])
  {
    var found := CheckStart(datasets, form);
    if found.None? {
      runs, tasks, settled := runs0, [], [];
    } else {
      runs, tasks, settled := Evaluate(found.value, models, runs0, form, ids, env);
    }
  }

  // ---------------------------------------------------------------------------
  // What the finished run shows

  lemma {:induction false} NoDupCard<T>(xs: seq<T>)
    requires NoDup(xs)
    ensures |set x | x in xs| == |xs|
  {
    if xs != [] {
      var init := xs[..|xs| - 1];
      var last := xs[|xs| - 1];
      assert xs == init + [last];
      assert NoDup(init) by {
        forall i, j | 0 <= i < j < |init| ensures init[i] != init[j] {
          assert init[i] == xs[i] && init[j] == xs[j];
        }
      }
      NoDupCard(init);
      forall i | 0 <= i < |init| ensures init[i] != last {
        assert init[i] == xs[i];
      }
      assert (set x | x in xs) == (set x | x in init) + {last};
    }
  }

  /** Distinct settled tasks drawn from the tasks: no more of them, and as many exactly when all settled. */
  lemma SettledCount(tasks: seq<Task>, settled: seq<Task>)
    requires NoDup(tasks) && NoDup(settled)
    requires forall t :: t in settled ==> t in tasks
    ensures |settled| <= |tasks|
    ensures |settled| == |tasks| <==> forall k :: 0 <= k < |tasks| ==> tasks[k] in settled
  {
    var a := set x | x in settled;
    var b := set x | x in tasks;
    NoDupCard(tasks);
    NoDupCard(settled);
    assert a <= b;
    assert b == a + (b - a) && a * (b - a) == {};
    assert |b| == |a| + |b - a|;
    if forall k :: 0 <= k < |tasks| ==> tasks[k] in settled {
      assert b - a == {};
    } else {
      var k :| 0 <= k < |tasks| && tasks[k] !in settled;
      assert tasks[k] in b - a;
    }
  }

  lemma NumberedNoDup(tasks: seq<Task>, s: Setup)
    requires Numbered(tasks, s)
    ensures NoDup(tasks)
  {
  }

  /** The run record `startEvaluation` leaves behind. */
  function FinalRun(dataset: Dataset, form: RunForm, ids: FreshValues, s: Setup,
                    tasks: seq<Task>, settled: seq<Task>): EvaluationRun
    requires Numbered(tasks, s) && forall t :: t in settled ==> t in tasks
  {
    assert forall t :: t in settled ==> WellFormed(t, s);
    MergeRun(NewRun(dataset, form, ids),
             FinalPatch(Outcomes(settled, s), AnyEscaped(settled, s), AllAdmitted(tasks, s)))
  }

  /**
    The finished run is the first run. Its results are the settled tasks'
    outcomes and its progress is their number. It has failed exactly when a
    failure escaped, and completed exactly when none did and every task
    settled; otherwise it is still running.
  */
  lemma FinalRunStatus(dataset: Dataset, form: RunForm, ids: FreshValues, runs0: seq<EvaluationRun>,
                       s: Setup, tasks: seq<Task>, settled: seq<Task>)
    requires Numbered(tasks, s) && forall t :: t in settled ==> t in tasks
    ensures var r := FinalRun(dataset, form, ids, s, tasks, settled);
            && UpdateRun(Prepend(NewRun(dataset, form, ids), runs0), ids.runId,
                         FinalPatch(Outcomes(settled, s), AnyEscaped(settled, s), AllAdmitted(tasks, s)))[0] == r
            && r.id == ids.runId && r.total == |dataset.items| * |form.modelIds|
            && r.results == Outcomes(settled, s) && r.progress == |r.results|
            && (r.status == Failed <==> AnyEscaped(settled, s))
            && (r.status == Completed <==> !AnyEscaped(settled, s) && AllAdmitted(tasks, s))
            && (r.status == Running <==> !AnyEscaped(settled, s) && !AllAdmitted(tasks, s))
  {
  }

  /**
    The progress never passes the total, and it reaches the total of a
    completed run exactly when, besides every task settling without an escaped
    failure, every selected model still exists (or the dataset is empty): a
    selected model that was deleted is counted in the total but gets no task.
  */
  lemma FinalRunProgress(dataset: Dataset, form: RunForm, ids: FreshValues, models: seq<LLMModel>,
                         env: RunOracles, tasks: seq<Task>, settled: seq<Task>)
    requires tasks == TaskMatrix(|dataset.items|, form.modelIds, models)
    requires NoDup(settled) && forall t :: t in settled ==> t in tasks
    requires forall k :: 0 <= k < |tasks| ==>
               (tasks[k] in settled <==> LimitOf(tasks[k], SetupOf(dataset, models, form, env)) >= 1)
    ensures var s := SetupOf(dataset, models, form, env);
            var r := FinalRun(dataset, form, ids, s, tasks, settled);
            && r.progress <= r.total
            && (r.status == Completed && r.progress == r.total <==>
                  !AnyEscaped(settled, s) && AllAdmitted(tasks, s) &&
                  (|dataset.items| == 0 || forall i :: 0 <= i < |form.modelIds| ==> Resolves(models, form.modelIds[i])))
  {
    var s := SetupOf(dataset, models, form, env);
    MatrixNumbered(s);
    NumberedNoDup(tasks, s);
    SettledCount(tasks, settled);
    assert forall t :: t in settled ==> WellFormed(t, s);
    MatrixMatchesTotal(dataset, form, ids, models);
    FinalRunStatus(dataset, form, ids, [], s, tasks, settled);
  }
}
