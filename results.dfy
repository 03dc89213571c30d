/**
  The per-model aggregation of a run and the radar-chart rows derived from it
  (pages/Results.tsx). The statistics dictionary is filled imperatively, as the
  source does: one entry per model id of the run's snapshot, then one pass over
  the results adding to the entry of the result's model, if it has one. The
  averaging and the radar rows are expressions over those statistics.
*/
module Results {

  import opened Types
  import opened Ratios

  /** The running totals kept for one model (`modelStats[mid]`). */
  datatype Stat = Stat(name: string, latencyTotal: real, count: nat, sums: map<MetricType, real>)

  /** One row of `aggregations`: the display name, each metric's average, the rounded latency. */
  datatype Row = Row(name: string, averages: map<MetricType, real>, latency: int)

  /** One row of `radarData`: the metric and, per model name, its average. */
  datatype RadarRow = RadarRow(subject: MetricType, values: map<string, real>)

  /** `models.find(m => m.id === mid)?.name || mid`. */
  function DisplayName(models: seq<LLMModel>, mid: string): (r: string)
    ensures FindModel(models, mid).Some? && FindModel(models, mid).value.name != "" ==>
              r == FindModel(models, mid).value.name
    ensures FindModel(models, mid).None? || FindModel(models, mid).value.name == "" ==> r == mid
  {
    match FindModel(models, mid)
    case Some(m) => if m.name != "" then m.name else mid
    case None => mid
  }

  /** What one score adds to its metric's sum: `Number(val)`, a tenth for the judge, nothing for LENGTH. */
  function Contribution(metric: MetricType, s: Score): (r: real)
    ensures metric == Length ==> r == 0.0
    ensures metric == LlmJudge && s.Num? ==> r == s.n / 10.0
    ensures metric != Length && metric != LlmJudge && s.Num? ==> r == s.n
    ensures metric != Length && metric != LlmJudge && s.Flag? ==> r == (if s.b then 1.0 else 0.0)
  {
    var v := match s case Num(x) => x case Flag(b) => if b then 1.0 else 0.0;
    if metric == Length then 0.0
    else if metric == LlmJudge then v / 10.0
    else v
  }

  /** The entry created for a model before any result is read. */
  function InitStat(models: seq<LLMModel>, mid: string, metrics: seq<MetricType>): Stat
  {
    Stat(DisplayName(models, mid), 0.0, 0, map m | m in metrics :: 0.0)
  }

  /** One result added to its model's entry; a metric the entry does not track is not read back. */
  function AddResult(stat: Stat, res: EvaluationResultItem): Stat
  {
    Stat(stat.name, stat.latencyTotal + res.latencyMs, stat.count + 1,
         map m | m in stat.sums :: stat.sums[m] + (if m in res.scores then Contribution(m, res.scores[m]) else 0.0))
  }

  /** The entry of model `mid` after the results `rs`, in order. */
  function Fold(init: Stat, rs: seq<EvaluationResultItem>, mid: string): (r: Stat)
    ensures r.sums.Keys == init.sums.Keys
  {
    if |rs| == 0 then init
    else
      var s := Fold(init, rs[..|rs| - 1], mid);
      if rs[|rs| - 1].modelId == mid then AddResult(s, rs[|rs| - 1]) else s
  }

  /** The statistics the source computes for model `mid` of `run`. */
  function StatOf(run: EvaluationRun, models: seq<LLMModel>, mid: string): (r: Stat)
    ensures r.sums.Keys == set m | m in run.configSnapshot.metrics
  {
    Fold(InitStat(models, mid, run.configSnapshot.metrics), run.results, mid)
  }

  /** The ids of `xs` in order of first occurrence: the key order of the statistics dictionary. */
  function Distinct(xs: seq<string>): (r: seq<string>)
    ensures forall x :: x in r <==> x in xs
    ensures forall i, j :: 0 <= i < j < |r| ==> r[i] != r[j]
  {
    if |xs| == 0 then []
    else
      var d := Distinct(xs[..|xs| - 1]);
      assert xs == xs[..|xs| - 1] + [xs[|xs| - 1]];
      if xs[|xs| - 1] in d then d else d + [xs[|xs| - 1]]
  }

  // ----- Reference definitions of the totals -----

  /** The results that belong to model `mid`, in order. */
  function ResultsOf(rs: seq<EvaluationResultItem>, mid: string): (r: seq<EvaluationResultItem>)
    ensures forall x :: x in r <==> x in rs && x.modelId == mid
  {
    if |rs| == 0 then []
    else
      var p := ResultsOf(rs[..|rs| - 1], mid);
      assert rs == rs[..|rs| - 1] + [rs[|rs| - 1]];
      if rs[|rs| - 1].modelId == mid then p + [rs[|rs| - 1]] else p
  }

  function LatencySum(rs: seq<EvaluationResultItem>): real
  {
    if |rs| == 0 then 0.0 else LatencySum(rs[..|rs| - 1]) + rs[|rs| - 1].latencyMs
  }

  /** The sum of the contributions of metric `m` over `rs` (results without that score add nothing). */
  function MetricSum(rs: seq<EvaluationResultItem>, m: MetricType): real
  {
    if |rs| == 0 then 0.0
    else
      var last := rs[|rs| - 1];
      MetricSum(rs[..|rs| - 1], m) + (if m in last.scores then Contribution(m, last.scores[m]) else 0.0)
  }

  /**
    The fold computes, for model `mid`, the number of its results, the sum of
    their latencies and, per tracked metric, the sum of their contributions;
    results of other models are ignored, and the name never changes.
  */
  lemma {:induction false} FoldTotals(init: Stat, rs: seq<EvaluationResultItem>, mid: string)
    ensures Fold(init, rs, mid).name == init.name
    ensures Fold(init, rs, mid).count == init.count + |ResultsOf(rs, mid)|
    ensures Fold(init, rs, mid).latencyTotal == init.latencyTotal + LatencySum(ResultsOf(rs, mid))
    ensures Fold(init, rs, mid).sums.Keys == init.sums.Keys
    ensures forall m :: m in init.sums ==>
              Fold(init, rs, mid).sums[m] == init.sums[m] + MetricSum(ResultsOf(rs, mid), m)
  {
    if |rs| > 0 {
      var prefix := rs[..|rs| - 1];
      var last := rs[|rs| - 1];
      FoldTotals(init, prefix, mid);
      if last.modelId == mid {
        var p := ResultsOf(prefix, mid);
        assert ResultsOf(rs, mid) == p + [last];
        assert (p + [last])[..|p|] == p;
      }
    }
  }

  /** The statistics of a model, stated without the fold. */
  lemma StatOfTotals(run: EvaluationRun, models: seq<LLMModel>, mid: string)
    ensures StatOf(run, models, mid) ==
              Stat(DisplayName(models, mid), LatencySum(ResultsOf(run.results, mid)),
                   |ResultsOf(run.results, mid)|,
                   map m | m in run.configSnapshot.metrics :: MetricSum(ResultsOf(run.results, mid), m))
  {
    var init := InitStat(models, mid, run.configSnapshot.metrics);
    FoldTotals(init, run.results, mid);
    var s := StatOf(run, models, mid);
    var expected := map m | m in run.configSnapshot.metrics :: MetricSum(ResultsOf(run.results, mid), m);
    assert s.sums.Keys == expected.Keys;
    assert forall m :: m in s.sums ==> s.sums[m] == expected[m];
    assert s.sums == expected;
  }

  /** Only the model's own results matter: dropping every other result changes nothing. */
  lemma {:induction false} FoldOwnResults(init: Stat, rs: seq<EvaluationResultItem>, mid: string)
    ensures Fold(init, rs, mid) == Fold(init, ResultsOf(rs, mid), mid)
  {
    if |rs| > 0 {
      var prefix := rs[..|rs| - 1];
      var last := rs[|rs| - 1];
      FoldOwnResults(init, prefix, mid);
      var p := ResultsOf(prefix, mid);
      ResultsOfFixed(prefix, mid);
      if last.modelId == mid {
        assert ResultsOf(rs, mid) == p + [last];
        assert (p + [last])[..|p|] == p;
      }
    }
  }

  /** Filtering twice is filtering once. */
  lemma {:induction false} ResultsOfFixed(rs: seq<EvaluationResultItem>, mid: string)
    ensures ResultsOf(ResultsOf(rs, mid), mid) == ResultsOf(rs, mid)
  {
    if |rs| > 0 {
      var prefix := rs[..|rs| - 1];
      var p := ResultsOf(prefix, mid);
      ResultsOfFixed(prefix, mid);
      if rs[|rs| - 1].modelId == mid {
        assert (p + [rs[|rs| - 1]])[..|p|] == p;
      }
    }
  }

  /**
    `aggregations`' statistics for `run`: the dictionary keyed by the snapshot's
    model ids, its key order, and each entry's totals after all results.
  */
  method ComputeStats(run: EvaluationRun, models: seq<LLMModel>) returns (stats: map<string, Stat>, order: seq<string>)
    ensures order == Distinct(run.configSnapshot.modelIds)
    ensures stats.Keys == set mid | mid in run.configSnapshot.modelIds
    ensures forall mid :: mid in stats ==> stats[mid] == StatOf(run, models, mid)
  {
    var ids := run.configSnapshot.modelIds;
    var metrics := run.configSnapshot.metrics;
    stats := map[];
    order := [];
    for i := 0 to |ids|
      invariant order == Distinct(ids[..i])
      invariant stats.Keys == set mid | mid in ids[..i]
      invariant forall mid :: mid in stats ==> stats[mid] == InitStat(models, mid, metrics)
    {
      assert ids[..i + 1][..i] == ids[..i];
      if ids[i] !in stats {
        order := order + [ids[i]];
      }
      stats := stats[ids[i] := InitStat(models, ids[i], metrics)];
      assert ids[..i + 1] == ids[..i] + [ids[i]];
    }
    assert ids[..|ids|] == ids;
    var rs := run.results;
    for j := 0 to |rs|
      invariant stats.Keys == set mid | mid in ids
      invariant forall mid :: mid in stats ==> stats[mid] == Fold(InitStat(models, mid, metrics), rs[..j], mid)
    {
      assert rs[..j + 1][..j] == rs[..j];
      var res := rs[j];
      if res.modelId in stats {
        stats := stats[res.modelId := AddResult(stats[res.modelId], res)];
      }
    }
    assert rs[..|rs|] == rs;
  }

  // ----- Averaging -----

  /** `sum / (count || 1)`. */
  function Average(sum: real, count: nat): real
  {
    sum / (if count == 0 then 1 else count) as real
  }

  /** `Math.round`: the nearest integer, halves rounded up. */
  function Round(x: real): (r: int)
    ensures r as real <= x + 0.5 < r as real + 1.0
  {
    (x + 0.5).Floor
  }

  /** The row of one model: every snapshot metric but LENGTH, averaged, and the rounded mean latency. */
  function AggregateRow(stat: Stat, metrics: seq<MetricType>): (row: Row)
    requires forall m :: m in metrics ==> m in stat.sums
    ensures row.name == stat.name
    ensures row.averages.Keys == (set m | m in metrics) - {Length}
    ensures forall m :: m in row.averages ==> row.averages[m] == Average(stat.sums[m], stat.count)
    ensures row.latency == Round(Average(stat.latencyTotal, stat.count))
  {
    Row(stat.name,
        map m | m in metrics && m != Length :: Average(stat.sums[m], stat.count),
        Round(Average(stat.latencyTotal, stat.count)))
  }

  /**
    `aggregations`: no row without a run; otherwise one row per distinct model
    id of the snapshot, in order of first occurrence.
  */
  method Aggregations(run: Option<EvaluationRun>, models: seq<LLMModel>) returns (rows: seq<Row>)
    ensures run.None? ==> rows == []
    ensures run.Some? ==> |rows| == |Distinct(run.value.configSnapshot.modelIds)|
    ensures run.Some? ==> forall i :: 0 <= i < |rows| ==>
              rows[i] == AggregateRow(StatOf(run.value, models, Distinct(run.value.configSnapshot.modelIds)[i]),
                                      run.value.configSnapshot.metrics)
  {
    if run.None? {
      return [];
    }
    var r := run.value;
    var stats, order := ComputeStats(r, models);
    rows := [];
    for i := 0 to |order|
      invariant |rows| == i
      invariant forall k :: 0 <= k < i ==>
                  rows[k] == AggregateRow(StatOf(r, models, order[k]), r.configSnapshot.metrics)
    {
      rows := rows + [AggregateRow(stats[order[i]], r.configSnapshot.metrics)];
    }
  }

  /** A model without results reports 0 for every metric and 0 ms latency. */
  lemma NoResultsReportZero(run: EvaluationRun, models: seq<LLMModel>, mid: string)
    requires forall x :: x in run.results ==> x.modelId != mid
    ensures forall m :: m in AggregateRow(StatOf(run, models, mid), run.configSnapshot.metrics).averages ==>
              AggregateRow(StatOf(run, models, mid), run.configSnapshot.metrics).averages[m] == 0.0
    ensures AggregateRow(StatOf(run, models, mid), run.configSnapshot.metrics).latency == 0
  {
    StatOfTotals(run, models, mid);
    assert ResultsOf(run.results, mid) == [];
  }

  /** A metric whose every contribution lies in [0, 1] sums to at most the number of results. */
  lemma {:induction false} MetricSumBounds(rs: seq<EvaluationResultItem>, m: MetricType)
    requires forall x :: x in rs ==> m in x.scores && 0.0 <= Contribution(m, x.scores[m]) <= 1.0
    ensures 0.0 <= MetricSum(rs, m) <= |rs| as real
  {
    if |rs| > 0 {
      var prefix := rs[..|rs| - 1];
      assert forall x :: x in prefix ==> x in rs;
      MetricSumBounds(prefix, m);
    }
  }

  /** Then its average lies in [0, 1] too. */
  lemma AverageBounds(run: EvaluationRun, models: seq<LLMModel>, mid: string, m: MetricType)
    requires m in run.configSnapshot.metrics && m != Length
    requires forall x :: x in run.results && x.modelId == mid ==>
               m in x.scores && 0.0 <= Contribution(m, x.scores[m]) <= 1.0
    ensures m in AggregateRow(StatOf(run, models, mid), run.configSnapshot.metrics).averages
    ensures 0.0 <= AggregateRow(StatOf(run, models, mid), run.configSnapshot.metrics).averages[m] <= 1.0
  {
    StatOfTotals(run, models, mid);
    var own := ResultsOf(run.results, mid);
    MetricSumBounds(own, m);
    var sum := MetricSum(own, m);
    if |own| > 0 {
      DivAtMostOne(sum, |own| as real);
    }
  }

  // ----- Radar chart -----

  /** `metrics.filter(m => m !== MetricType.LENGTH)`. */
  function WithoutLength(metrics: seq<MetricType>): (r: seq<MetricType>)
    ensures forall m :: m in r <==> m in metrics && m != Length
  {
    if |metrics| == 0 then []
    else if metrics[0] == Length then WithoutLength(metrics[1..])
    else [metrics[0]] + WithoutLength(metrics[1..])
  }

  /** The entries one radar row gets from the rows: `obj[agg.name] = agg[m]`, a later name overwriting an earlier one. */
  function RadarValues(rows: seq<Row>, m: MetricType): (r: map<string, real>)
    ensures r.Keys == set x | x in rows :: x.name
  {
    if |rows| == 0 then map[]
    else
      var prefix := rows[..|rows| - 1];
      var last := rows[|rows| - 1];
      var v := RadarValues(prefix, m);
      assert rows == prefix + [last];
      v[last.name := if m in last.averages then last.averages[m] else 0.0]
  }

  /** `radarData`: nothing without rows, else one row per snapshot metric but LENGTH, in order. */
  function RadarData(rows: seq<Row>, metrics: seq<MetricType>): (r: seq<RadarRow>)
    ensures rows == [] ==> r == []
    ensures rows != [] ==> |r| == |WithoutLength(metrics)|
    ensures rows != [] ==> forall i :: 0 <= i < |r| ==>
              r[i].subject == WithoutLength(metrics)[i] && r[i].values == RadarValues(rows, r[i].subject)
  {
    if rows == [] then []
    else
      var ms := WithoutLength(metrics);
      seq(|ms|, i requires 0 <= i < |ms| => RadarRow(ms[i], RadarValues(rows, ms[i])))
  }

  /** With distinct model names, each radar entry is that model's average for the row's metric. */
  lemma {:induction false} RadarValuesDistinct(rows: seq<Row>, m: MetricType, k: nat)
    requires k < |rows|
    requires forall i, j :: 0 <= i < j < |rows| ==> rows[i].name != rows[j].name
    requires m in rows[k].averages
    ensures rows[k].name in RadarValues(rows, m)
    ensures RadarValues(rows, m)[rows[k].name] == rows[k].averages[m]
  {
    var prefix := rows[..|rows| - 1];
    if k < |rows| - 1 {
      assert prefix[k] == rows[k];
      RadarValuesDistinct(prefix, m, k);
      assert rows[|rows| - 1].name != rows[k].name;
    }
  }
}
