/**
 * The run comparison of utils/comparison_utils.py: merging index entries with
 * the stats and results stored in their directories, the metrics of the
 * completed runs, the best/worst search over them, the percentage
 * difference, the batch-level rows with their labels, and the one-line run
 * summary. The two JSON files of a run directory are read through loader
 * parameters that give `Null` for a file that is missing or unreadable.
 */
module Comparison {
  import opened Common
  import opened Strings
  import opened Json
  import opened Batching
  import TestRuns

  /** A file of a run directory as `load_test_stats` / `load_test_results` return it: `Null` for `None`. */
  type Loader = string -> Value

  /** `base_output_dir / test_run['output_dir']`: a missing key or a value that is no string raises. */
  function OutputDir(run: Dict): Result<string, ()> {
    match Get(run, "output_dir")
      case Some(Str(s)) => Ok(s)
      case _ => Err(())
  }

  // ---------------------------------------------------------------------------
  // merge_test_data
  // ---------------------------------------------------------------------------

  /** The four keys `merge_test_data` sets on top of a run's own. */
  function MergeKeys(stats: Value, results: Value): Dict {
    [Entry("stats", stats), Entry("results", results),
     Entry("has_stats", Bool(stats != Null)), Entry("has_results", Bool(results != Null))]
  }

  /** `{**test_run, 'stats': ..., 'results': ..., 'has_stats': ..., 'has_results': ...}`. */
  function Merged(run: Dict, stats: Value, results: Value): Dict {
    Update(run, MergeKeys(stats, results))
  }

  /** The merged entry of one run. */
  function MergeRun(run: Dict, loadStats: Loader, loadResults: Loader): Result<Dict, ()> {
    match OutputDir(run)
      case Err(_) => Err(())
      case Ok(dir) => Ok(Merged(run, loadStats(dir), loadResults(dir)))
  }

  /** `merge_test_data(test_runs, base)`: the merged entries in order, up to the first run that raises. */
  function Merge(runs: seq<Dict>, loadStats: Loader, loadResults: Loader): Result<seq<Dict>, ()> {
    Traverse(runs, run => MergeRun(run, loadStats, loadResults))
  }

  /** The four keys are distinct and read as set. */
  lemma MergeKeysSpec(stats: Value, results: Value, k: string)
    ensures var e := MergeKeys(stats, results);
      DistinctKeys(e) &&
      Get(e, "stats") == Some(stats) && Get(e, "results") == Some(results) &&
      Get(e, "has_stats") == Some(Bool(stats != Null)) && Get(e, "has_results") == Some(Bool(results != Null)) &&
      (HasKey(e, k) <==> k in ["stats", "results", "has_stats", "has_results"])
  {
    var e := MergeKeys(stats, results);
    GetAt(e, 0, "stats");
    GetAt(e, 1, "results");
    GetAt(e, 2, "has_stats");
    GetAt(e, 3, "has_results");
    if k !in ["stats", "results", "has_stats", "has_results"] {
      assert forall j :: 0 <= j < |e| ==> e[j].key != k;
    }
  }

  /** A merged entry holds what was loaded and says whether anything was. */
  lemma MergedLoaded(run: Dict, stats: Value, results: Value)
    ensures var m := Merged(run, stats, results);
      Get(m, "stats") == Some(stats) && Get(m, "results") == Some(results) &&
      Get(m, "has_stats") == Some(Bool(stats != Null)) && Get(m, "has_results") == Some(Bool(results != Null))
  {
    var e := MergeKeys(stats, results);
    MergeKeysSpec(stats, results, "stats");
    GetUpdate(run, e, "stats");
    GetUpdate(run, e, "results");
    GetUpdate(run, e, "has_stats");
    GetUpdate(run, e, "has_results");
  }

  /** A merged entry keeps the run's other keys as they were, and keeps the run's keys in place. */
  lemma MergedKeeps(run: Dict, stats: Value, results: Value, k: string)
    requires k !in ["stats", "results", "has_stats", "has_results"]
    ensures Get(Merged(run, stats, results), k) == Get(run, k)
    ensures |Keys(Merged(run, stats, results))| >= |run| && Keys(Merged(run, stats, results))[..|run|] == Keys(run)
  {
    var e := MergeKeys(stats, results);
    MergeKeysSpec(stats, results, k);
    GetUpdate(run, e, k);
    UpdateKeepsOrder(run, e);
  }

  /**
   * One merged entry per run, in order, each built from what the loaders gave
   * for that run's directory; it raises exactly when some run has no string
   * `output_dir`.
   */
  lemma MergeSpec(runs: seq<Dict>, loadStats: Loader, loadResults: Loader)
    ensures Merge(runs, loadStats, loadResults).Ok? <==> forall i :: 0 <= i < |runs| ==> OutputDir(runs[i]).Ok?
    ensures Merge(runs, loadStats, loadResults).Ok? ==>
      var ms := Merge(runs, loadStats, loadResults).value;
      |ms| == |runs| &&
      forall i :: 0 <= i < |runs| ==>
        var dir := OutputDir(runs[i]).value;
        ms[i] == Merged(runs[i], loadStats(dir), loadResults(dir))
  {
    TraverseSpec(runs, run => MergeRun(run, loadStats, loadResults));
  }

  /** `merge_test_data`: the loop appending one merged entry per run. */
  method MergeTestData(runs: seq<Dict>, loadStats: Loader, loadResults: Loader) returns (r: Result<seq<Dict>, ()>)
    ensures r == Merge(runs, loadStats, loadResults)
  {
    var f := run => MergeRun(run, loadStats, loadResults);
    var merged := [];
    var i := 0;
    while i < |runs|
      invariant i <= |runs|
      invariant Traverse(runs[..i], f) == Ok(merged)
    {
      TraverseStep(runs, f, i);
      var dir := OutputDir(runs[i]);
      if dir.Err? {
        TraverseFirstError(runs, f, i);
        return Err(());
      }
      var stats := loadStats(dir.value);
      var results := loadResults(dir.value);
      merged := merged + [Merged(runs[i], stats, results)];
      i := i + 1;
    }
    assert runs[..i] == runs;
    r := Ok(merged);
  }

  // ---------------------------------------------------------------------------
  // calculate_performance_metrics
  // ---------------------------------------------------------------------------

  /** The runs whose `status` reads "completed", in order. */
  function Completed(runs: seq<Dict>): seq<Dict> {
    TestRuns.WithField(runs, "status", Str("completed"))
  }

  /** One row of the metrics table. */
  datatype Metric = Metric(testId: Value, timestamp: Value, cloudProvider: Value, instanceType: Value,
                           batchSize: Value, numConnections: Value,
                           totalRecords: Value, totalDurationSeconds: Value, averageRecordsPerSecond: Value)

  /** The keys a completed run must have; the three totals default to 0. */
  predicate HasMetricKeys(run: Dict) {
    HasKey(run, "test_id") && HasKey(run, "timestamp") && HasKey(run, "cloud_provider") &&
    HasKey(run, "instance_type") && HasKey(run, "batch_size") && HasKey(run, "num_connections")
  }

  /** The metric row of one completed run; a missing required key raises. */
  function MetricOf(run: Dict): Result<Metric, ()> {
    if !HasMetricKeys(run) then Err(())
    else Ok(Metric(Get(run, "test_id").value, Get(run, "timestamp").value, Get(run, "cloud_provider").value,
                   Get(run, "instance_type").value, Get(run, "batch_size").value, Get(run, "num_connections").value,
                   GetOr(run, "total_records", Int(0)), GetOr(run, "total_duration_seconds", Int(0)),
                   GetOr(run, "average_records_per_second", Int(0))))
  }

  /** The rows of `calculate_performance_metrics`, before the rank columns. */
  function Metrics(runs: seq<Dict>): Result<seq<Metric>, ()> {
    Traverse(Completed(runs), MetricOf)
  }

  /** A missing total reads 0; a present one is taken as it is. */
  lemma MetricOfSpec(run: Dict)
    requires HasMetricKeys(run)
    ensures var m := MetricOf(run).value;
      Some(m.testId) == Get(run, "test_id") && Some(m.cloudProvider) == Get(run, "cloud_provider") &&
      Some(m.instanceType) == Get(run, "instance_type") &&
      (!HasKey(run, "total_records") ==> m.totalRecords == Int(0)) &&
      (HasKey(run, "total_records") ==> Some(m.totalRecords) == Get(run, "total_records")) &&
      (!HasKey(run, "total_duration_seconds") ==> m.totalDurationSeconds == Int(0)) &&
      (HasKey(run, "total_duration_seconds") ==> Some(m.totalDurationSeconds) == Get(run, "total_duration_seconds")) &&
      (!HasKey(run, "average_records_per_second") ==> m.averageRecordsPerSecond == Int(0)) &&
      (HasKey(run, "average_records_per_second") ==> Some(m.averageRecordsPerSecond) == Get(run, "average_records_per_second"))
  {
  }

  /**
   * Exactly the completed runs, in order, one row each; raising exactly when
   * a completed run lacks a required key. Runs in any other state never
   * matter.
   */
  lemma MetricsSpec(runs: seq<Dict>)
    ensures forall d :: d in Completed(runs) <==> d in runs && Get(d, "status") == Some(Str("completed"))
    ensures Metrics(runs).Ok? <==> forall i :: 0 <= i < |Completed(runs)| ==> HasMetricKeys(Completed(runs)[i])
    ensures Metrics(runs).Ok? ==>
      |Metrics(runs).value| == |Completed(runs)| &&
      forall i :: 0 <= i < |Completed(runs)| ==> Metrics(runs).value[i] == MetricOf(Completed(runs)[i]).value
  {
    TestRuns.WithFieldSpec(runs, "status", Str("completed"));
    TraverseSpec(Completed(runs), MetricOf);
  }

  /** Adding runs that are not completed leaves the metrics as they were; completed ones add rows at the end. */
  lemma MetricsConcat(a: seq<Dict>, b: seq<Dict>)
    ensures Completed(a + b) == Completed(a) + Completed(b)
    ensures (forall i :: 0 <= i < |b| ==> Get(b[i], "status") != Some(Str("completed"))) ==> Metrics(a + b) == Metrics(a)
  {
    TestRuns.WithFieldConcat(a, b, "status", Str("completed"));
    if forall i :: 0 <= i < |b| ==> Get(b[i], "status") != Some(Str("completed")) {
      TestRuns.WithFieldSpec(b, "status", Str("completed"));
      NoneCompleted(b);
      assert Completed(a) + Completed(b) == Completed(a);
    }
  }

  /** One more run: the completed ones among `runs[..i + 1]`. */
  lemma CompletedStep(runs: seq<Dict>, i: nat)
    requires i < |runs|
    ensures Completed(runs[..i + 1]) ==
      Completed(runs[..i]) + (if Get(runs[i], "status") == Some(Str("completed")) then [runs[i]] else [])
  {
    assert runs[..i + 1][..i] == runs[..i];
  }

  /** A completed run after the first `i` whose row raises makes the whole table raise. */
  lemma MetricsFirstError(runs: seq<Dict>, i: nat)
    requires i < |runs| && Get(runs[i], "status") == Some(Str("completed")) && MetricOf(runs[i]).Err?
    requires Traverse(Completed(runs[..i]), MetricOf).Ok?
    ensures Metrics(runs) == Err(())
  {
    var kept := Completed(runs[..i]);
    CompletedStep(runs, i);
    assert runs == runs[..i + 1] + runs[i + 1..];
    MetricsConcat(runs[..i + 1], runs[i + 1..]);
    var all := Completed(runs);
    assert all[..|kept| + 1] == kept + [runs[i]];
    assert all[..|kept|] == kept;
    TraverseFirstError(all, MetricOf, |kept|);
  }

  /** One pass of the loop: a completed run whose row is built adds it; any other run adds nothing. */
  lemma MetricsStep(runs: seq<Dict>, i: nat, ms: seq<Metric>)
    requires i < |runs| && Traverse(Completed(runs[..i]), MetricOf) == Ok(ms)
    requires Get(runs[i], "status") == Some(Str("completed")) ==> MetricOf(runs[i]).Ok?
    ensures Traverse(Completed(runs[..i + 1]), MetricOf) ==
      Ok(if Get(runs[i], "status") == Some(Str("completed")) then ms + [MetricOf(runs[i]).value] else ms)
  {
    var kept := Completed(runs[..i]);
    CompletedStep(runs, i);
    if Get(runs[i], "status") == Some(Str("completed")) {
      var xs := kept + [runs[i]];
      assert xs[..|kept|] == kept;
      assert xs[..|kept| + 1] == xs;
      TraverseStep(xs, MetricOf, |kept|);
    } else {
      assert Completed(runs[..i + 1]) == kept;
    }
  }

  /** A list with no completed run contributes no row. */
  lemma {:induction false} NoneCompleted(b: seq<Dict>)
    requires forall i :: 0 <= i < |b| ==> Get(b[i], "status") != Some(Str("completed"))
    ensures Completed(b) == []
    decreases |b|
  {
    if |b| > 0 {
      NoneCompleted(b[..|b| - 1]);
    }
  }

  /** `calculate_performance_metrics`: the loop appending a row per completed run. */
  method CalculatePerformanceMetrics(runs: seq<Dict>) returns (r: Result<seq<Metric>, ()>)
    ensures r == Metrics(runs)
  {
    var metrics := [];
    var i := 0;
    while i < |runs|
      invariant i <= |runs|
      invariant Traverse(Completed(runs[..i]), MetricOf) == Ok(metrics)
    {
      var next := MetricsPass(runs, i, metrics);
      if next.Err? {
        return Err(());
      }
      metrics := next.value;
      i := i + 1;
    }
    assert runs[..i] == runs;
    r := Ok(metrics);
  }

  /** One pass of the loop of `calculate_performance_metrics`, over `runs[i]`. */
  method MetricsPass(runs: seq<Dict>, i: nat, metrics: seq<Metric>) returns (r: Result<seq<Metric>, ()>)
    requires i < |runs| && Traverse(Completed(runs[..i]), MetricOf) == Ok(metrics)
    ensures r.Ok? ==> Traverse(Completed(runs[..i + 1]), MetricOf) == r
    ensures r.Err? ==> Metrics(runs) == Err(())
  {
    if Get(runs[i], "status") == Some(Str("completed")) {
      var m := MetricRow(runs[i]);
      if m.Err? {
        MetricsFirstError(runs, i);
        return Err(());
      }
      MetricsStep(runs, i, metrics);
      r := Ok(metrics + [m.value]);
    } else {
      MetricsStep(runs, i, metrics);
      r := Ok(metrics);
    }
  }

  /** The row of one completed run, as the dict literal of the loop builds it. */
  method MetricRow(run: Dict) returns (r: Result<Metric, ()>)
    ensures r == MetricOf(run)
  {
    if !HasMetricKeys(run) {
      return Err(());
    }
    r := Ok(Metric(Get(run, "test_id").value, Get(run, "timestamp").value, Get(run, "cloud_provider").value,
                   Get(run, "instance_type").value, Get(run, "batch_size").value, Get(run, "num_connections").value,
                   GetOr(run, "total_records", Int(0)), GetOr(run, "total_duration_seconds", Int(0)),
                   GetOr(run, "average_records_per_second", Int(0))));
  }

  // ---------------------------------------------------------------------------
  // calculate_percentage_difference
  // ---------------------------------------------------------------------------

  /** `calculate_percentage_difference(base, compare)`, on exact numbers. */
  function PercentageDifference(base: real, compare: real): real {
    if base == 0.0 then 0.0 else (compare - base) / base * 100.0
  }

  /**
   * A zero base gives 0; otherwise the difference is the one that, applied
   * to the base, gives back the compared value, and its sign is the sign of
   * the change relative to the base.
   */
  lemma PercentageDifferenceSpec(base: real, compare: real)
    ensures base == 0.0 ==> PercentageDifference(base, compare) == 0.0
    ensures base != 0.0 ==> base + base * PercentageDifference(base, compare) / 100.0 == compare
    ensures compare == base ==> PercentageDifference(base, compare) == 0.0
    ensures base > 0.0 ==> (PercentageDifference(base, compare) > 0.0 <==> compare > base)
  {
    if base != 0.0 {
      var d := (compare - base) / base;
      assert d * base == compare - base;
      if base > 0.0 {
        if compare > base {
          assert d > 0.0;
        } else {
          assert d <= 0.0;
        }
      }
    }
  }

  // ---------------------------------------------------------------------------
  // analyze_performance_comparison
  // ---------------------------------------------------------------------------

  /**
   * A metric cell in its pandas column: a number (Python's `bool` counts as
   * an `int`), or `None`, which pandas stores as a missing value (`NaN`);
   * any other value cannot be compared with a number.
   */
  function Cell(v: Value): Result<Option<real>, ()> {
    if v.Null? then Ok(None)
    else match Numeric(v)
      case Some(x) => Ok(Some(x))
      case None => Err(())
  }

  function Throughput(m: Metric): Result<Option<real>, ()> { Cell(m.averageRecordsPerSecond) }

  function Duration(m: Metric): Result<Option<real>, ()> { Cell(m.totalDurationSeconds) }

  /** Some cell of the column is not missing. */
  predicate HasValue(xs: seq<Option<real>>) {
    exists i :: 0 <= i < |xs| && xs[i].Some?
  }

  /** pandas' `idxmax`: the first position of the largest value, missing values skipped. */
  function ArgMax(xs: seq<Option<real>>): (r: nat)
    requires HasValue(xs)
    ensures r < |xs| && xs[r].Some?
    ensures forall j :: 0 <= j < |xs| && xs[j].Some? ==> xs[j].value <= xs[r].value
    ensures forall j :: 0 <= j < r && xs[j].Some? ==> xs[j].value < xs[r].value
    decreases |xs|
  {
    var init, last := xs[..|xs| - 1], |xs| - 1;
    if !HasValue(init) then
      assert forall j :: 0 <= j < last ==> init[j] == xs[j];
      last
    else
      var m := ArgMax(init);
      assert forall j :: 0 <= j < last ==> init[j] == xs[j];
      if xs[last].Some? && xs[last].value > xs[m].value then last else m
  }

  /** pandas' `idxmin`: the first position of the smallest value, missing values skipped. */
  function ArgMin(xs: seq<Option<real>>): (r: nat)
    requires HasValue(xs)
    ensures r < |xs| && xs[r].Some?
    ensures forall j :: 0 <= j < |xs| && xs[j].Some? ==> xs[r].value <= xs[j].value
    ensures forall j :: 0 <= j < r && xs[j].Some? ==> xs[r].value < xs[j].value
    decreases |xs|
  {
    var init, last := xs[..|xs| - 1], |xs| - 1;
    if !HasValue(init) then
      assert forall j :: 0 <= j < last ==> init[j] == xs[j];
      last
    else
      var m := ArgMin(init);
      assert forall j :: 0 <= j < last ==> init[j] == xs[j];
      if xs[last].Some? && xs[last].value < xs[m].value then last else m
  }

  /** One of the four `{test_id, value, provider, instance}` entries of the analysis. */
  datatype Extreme = Extreme(testId: Value, value: real, provider: Value, instance: Value)

  /** The analysis, without the means and the groupings. */
  datatype Analysis =
    | NoData
    | Compared(totalTests: nat, bestThroughput: Extreme, worstThroughput: Extreme,
               fastestDuration: Extreme, slowestDuration: Extreme)

  function ExtremeAt(ms: seq<Metric>, xs: seq<Option<real>>, i: nat): Extreme
    requires i < |ms| && i < |xs| && xs[i].Some?
  {
    Extreme(ms[i].testId, xs[i].value, ms[i].cloudProvider, ms[i].instanceType)
  }

  /**
   * The comparison of a non-empty metrics table; a cell that is neither a
   * number nor missing raises, and so does a column with no number, whose
   * `idxmax` has no row to give.
   */
  function CompareMetrics(ms: seq<Metric>): Result<Analysis, ()>
    requires |ms| > 0
  {
    match (Traverse(ms, Throughput), Traverse(ms, Duration))
      case (Ok(ts), Ok(ds)) =>
        if |ts| != |ms| || |ds| != |ms| || !HasValue(ts) || !HasValue(ds) then Err(())
        else Ok(Compared(|ms|, ExtremeAt(ms, ts, ArgMax(ts)), ExtremeAt(ms, ts, ArgMin(ts)),
                         ExtremeAt(ms, ds, ArgMin(ds)), ExtremeAt(ms, ds, ArgMax(ds))))
      case _ => Err(())
  }

  /** `analyze_performance_comparison(test_runs)`. */
  function Analyze(runs: seq<Dict>): Result<Analysis, ()> {
    match Metrics(runs)
      case Err(_) => Err(())
      case Ok(ms) => if |ms| == 0 then Ok(NoData) else CompareMetrics(ms)
  }

  /**
   * The comparison succeeds exactly when every row's throughput and duration
   * are numbers or missing, and some row has a throughput and some a
   * duration; the best throughput is then at least and the worst at most
   * every row's throughput, and the fastest duration at most and the slowest
   * at least every row's duration, rows missing the figure aside.
   */
  lemma CompareMetricsBounds(ms: seq<Metric>)
    requires |ms| > 0
    ensures CompareMetrics(ms).Ok? <==>
      (forall i :: 0 <= i < |ms| ==> Throughput(ms[i]).Ok? && Duration(ms[i]).Ok?) &&
      (exists i :: 0 <= i < |ms| && Throughput(ms[i]).Ok? && Throughput(ms[i]).value.Some?) &&
      (exists i :: 0 <= i < |ms| && Duration(ms[i]).Ok? && Duration(ms[i]).value.Some?)
    ensures CompareMetrics(ms).Ok? ==>
      var a := CompareMetrics(ms).value;
      a.Compared? && a.totalTests == |ms| &&
      (forall i :: 0 <= i < |ms| && Throughput(ms[i]).value.Some? ==>
        a.worstThroughput.value <= Throughput(ms[i]).value.value <= a.bestThroughput.value) &&
      (forall i :: 0 <= i < |ms| && Duration(ms[i]).value.Some? ==>
        a.fastestDuration.value <= Duration(ms[i]).value.value <= a.slowestDuration.value)
  {
    TraverseSpec(ms, Throughput);
    TraverseSpec(ms, Duration);
    var rt, rd := Traverse(ms, Throughput), Traverse(ms, Duration);
    if rt.Ok? && rd.Ok? {
      var ts, ds := rt.value, rd.value;
      if HasValue(ts) && HasValue(ds) {
        var a := CompareMetrics(ms).value;
        assert a.bestThroughput == ExtremeAt(ms, ts, ArgMax(ts));
        assert a.worstThroughput == ExtremeAt(ms, ts, ArgMin(ts));
        assert a.fastestDuration == ExtremeAt(ms, ds, ArgMin(ds));
        assert a.slowestDuration == ExtremeAt(ms, ds, ArgMax(ds));
      }
    }
  }

  /** The best throughput is the record of the first row that has the largest throughput. */
  lemma CompareMetricsBest(ms: seq<Metric>)
    requires |ms| > 0 && CompareMetrics(ms).Ok?
    ensures var best := CompareMetrics(ms).value.bestThroughput;
      exists i :: 0 <= i < |ms| &&
        Throughput(ms[i]) == Ok(Some(best.value)) &&
        best == Extreme(ms[i].testId, best.value, ms[i].cloudProvider, ms[i].instanceType) &&
        forall j :: 0 <= j < i ==> Throughput(ms[j]).Ok? && (Throughput(ms[j]).value.Some? ==> Throughput(ms[j]).value.value < best.value)
  {
    TraverseSpec(ms, Throughput);
    var ts := Traverse(ms, Throughput).value;
    var b := ArgMax(ts);
    assert CompareMetrics(ms).value.bestThroughput == ExtremeAt(ms, ts, b);
  }

  /**
   * "no_data" exactly when the metrics table is empty, that is when no run
   * is completed; otherwise `total_tests` counts the completed runs.
   */
  lemma AnalyzeSpec(runs: seq<Dict>)
    ensures Analyze(runs) == Ok(NoData) <==> Metrics(runs).Ok? && |Completed(runs)| == 0
    ensures Analyze(runs).Ok? && Analyze(runs).value.Compared? ==>
      Metrics(runs).Ok? && |Metrics(runs).value| > 0 &&
      Analyze(runs) == CompareMetrics(Metrics(runs).value) &&
      Analyze(runs).value.totalTests == |Completed(runs)|
  {
    MetricsSpec(runs);
    if Metrics(runs).Ok? && |Metrics(runs).value| > 0 {
      CompareMetricsBounds(Metrics(runs).value);
    }
  }

  // ---------------------------------------------------------------------------
  // prepare_batch_comparison_data
  // ---------------------------------------------------------------------------

  /** `f"{cloud_provider}-{instance_type}-b{batch_size}-c{num_connections}"`. */
  function LabelText(provider: Value, instance: Value, batch: Value, conn: Value): string {
    Stringify(provider) + "-" + Stringify(instance) + "-b" + Stringify(batch) + "-c" + Stringify(conn)
  }

  /** The keys of a run a batch row reads. */
  predicate HasRowKeys(run: Dict) {
    HasKey(run, "test_id") && HasKey(run, "cloud_provider") && HasKey(run, "instance_type") &&
    HasKey(run, "batch_size") && HasKey(run, "num_connections")
  }

  /** The run's part of every batch row, before the batch's own keys. */
  function RowHead(run: Dict): Dict
    requires HasRowKeys(run)
  {
    var p, i, b, c := Get(run, "cloud_provider").value, Get(run, "instance_type").value,
                      Get(run, "batch_size").value, Get(run, "num_connections").value;
    [Entry("test_id", Get(run, "test_id").value), Entry("test_label", Str(LabelText(p, i, b, c))),
     Entry("cloud_provider", p), Entry("instance_type", i), Entry("batch_size", b), Entry("num_connections", c)]
  }

  /** One row: the run's part, then `**batch`; a batch that is no dict, or a missing run key, raises. */
  function BatchRow(run: Dict, batch: Value): Result<Dict, ()> {
    if !HasRowKeys(run) || !batch.Obj? then Err(())
    else Ok(Update(RowHead(run), batch.entries))
  }

  /** The rows of one run given its stats: none unless `stats and 'batches' in stats`. */
  function RunRows(run: Dict, stats: Value): Result<seq<Dict>, ()> {
    if !Truthy(stats) then Ok([])
    else match PyIn("batches", stats)
      case None => Err(())
      case Some(found) =>
        if !found then Ok([])
        else match Subscript(stats, "batches")
          case None => Err(())
          case Some(bs) =>
            match PyIter(bs)
              case None => Err(())
              case Some(items) => Traverse(items, b => BatchRow(run, b))
  }

  /** The rows of one selected run, its stats read from its directory. */
  function RowsOf(run: Dict, loadStats: Loader): Result<seq<Dict>, ()> {
    match OutputDir(run)
      case Err(_) => Err(())
      case Ok(dir) => RunRows(run, loadStats(dir))
  }

  /** `prepare_batch_comparison_data(selected, base)`: every run's rows, run after run. */
  function BatchRows(selected: seq<Dict>, loadStats: Loader): Result<seq<Dict>, ()> {
    match Traverse(selected, run => RowsOf(run, loadStats))
      case Err(_) => Err(())
      case Ok(lists) => Ok(Flatten(lists))
  }

  /** The run's part of a row names the run and carries its label. */
  lemma RowHeadSpec(run: Dict)
    requires HasRowKeys(run)
    ensures Get(RowHead(run), "test_id") == Get(run, "test_id")
    ensures Get(RowHead(run), "test_label") ==
      Some(Str(LabelText(Get(run, "cloud_provider").value, Get(run, "instance_type").value,
                         Get(run, "batch_size").value, Get(run, "num_connections").value)))
  {
    var h := RowHead(run);
    GetAt(h, 0, "test_id");
    GetAt(h, 1, "test_label");
  }

  /**
   * A row carries the batch's own keys as the batch has them, and for the
   * keys the batch does not set, what the run's part says: the run's id, its
   * label and its four settings.
   */
  lemma BatchRowSpec(run: Dict, batch: Dict, k: string)
    requires HasRowKeys(run) && DistinctKeys(batch)
    ensures BatchRow(run, Obj(batch)) == Ok(Update(RowHead(run), batch))
    ensures HasKey(batch, k) ==> Get(BatchRow(run, Obj(batch)).value, k) == Get(batch, k)
    ensures !HasKey(batch, k) ==> Get(BatchRow(run, Obj(batch)).value, k) == Get(RowHead(run), k)
  {
    GetUpdate(RowHead(run), batch, k);
  }

  /**
   * The rows of a run are one per stored batch, in order, when its stats are a
   * dict with a list of batch dicts; a run without stats or without
   * `batches` adds none.
   */
  lemma RunRowsSpec(run: Dict, stats: Value)
    ensures stats == Null ==> RunRows(run, stats) == Ok([])
    ensures stats.Obj? && !HasKey(stats.entries, "batches") ==> RunRows(run, stats) == Ok([])
    ensures stats.Obj? && HasRowKeys(run) && HasKey(stats.entries, "batches") && Get(stats.entries, "batches").value.List? ==>
      var bs := Get(stats.entries, "batches").value.items;
      (RunRows(run, stats).Ok? <==> forall j :: 0 <= j < |bs| ==> bs[j].Obj?) &&
      (RunRows(run, stats).Ok? ==>
        |RunRows(run, stats).value| == |bs| &&
        forall j :: 0 <= j < |bs| ==> RunRows(run, stats).value[j] == Update(RowHead(run), bs[j].entries))
  {
    if stats.Obj? && HasKey(stats.entries, "batches") {
      assert Truthy(stats);
      var bs := Get(stats.entries, "batches").value;
      if bs.List? {
        TraverseSpec(bs.items, b => BatchRow(run, b));
      }
    }
  }

  /**
   * The rows are the selected runs' rows concatenated in selection order, so
   * their number is the sum of the runs' batch counts.
   */
  lemma BatchRowsSpec(selected: seq<Dict>, loadStats: Loader)
    ensures BatchRows(selected, loadStats).Ok? <==> forall i :: 0 <= i < |selected| ==> RowsOf(selected[i], loadStats).Ok?
    ensures BatchRows(selected, loadStats).Ok? ==>
      var lists := Traverse(selected, run => RowsOf(run, loadStats)).value;
      |lists| == |selected| &&
      (forall i :: 0 <= i < |selected| ==> lists[i] == RowsOf(selected[i], loadStats).value) &&
      BatchRows(selected, loadStats).value == Flatten(lists) &&
      |BatchRows(selected, loadStats).value| == SumSizes(lists)
  {
    TraverseSpec(selected, run => RowsOf(run, loadStats));
    if BatchRows(selected, loadStats).Ok? {
      FlattenLength(Traverse(selected, run => RowsOf(run, loadStats)).value);
    }
  }

  /** `prepare_batch_comparison_data`: the outer loop over the selected runs. */
  method PrepareBatchComparisonData(selected: seq<Dict>, loadStats: Loader) returns (r: Result<seq<Dict>, ()>)
    ensures r == BatchRows(selected, loadStats)
  {
    var f := run => RowsOf(run, loadStats);
    ghost var lists: seq<seq<Dict>> := [];
    var all: seq<Dict> := [];
    var i := 0;
    while i < |selected|
      invariant i <= |selected|
      invariant Traverse(selected[..i], f) == Ok(lists)
      invariant all == Flatten(lists)
    {
      TraverseStep(selected, f, i);
      var dir := OutputDir(selected[i]);
      if dir.Err? {
        TraverseFirstError(selected, f, i);
        return Err(());
      }
      var rows := CollectRows(selected[i], loadStats(dir.value));
      if rows.Err? {
        TraverseFirstError(selected, f, i);
        return Err(());
      }
      FlattenAppend(lists, rows.value);
      lists := lists + [rows.value];
      all := all + rows.value;
      i := i + 1;
    }
    assert selected[..i] == selected;
    r := Ok(all);
  }

  /** The inner loop of `prepare_batch_comparison_data` over one run's batches. */
  method CollectRows(run: Dict, stats: Value) returns (r: Result<seq<Dict>, ()>)
    ensures r == RunRows(run, stats)
  {
    if !Truthy(stats) {
      return Ok([]);
    }
    var found := PyIn("batches", stats);
    if found.None? {
      return Err(());
    }
    if !found.value {
      return Ok([]);
    }
    var bs := Subscript(stats, "batches");
    if bs.None? {
      return Err(());
    }
    var items := PyIter(bs.value);
    if items.None? {
      return Err(());
    }
    var xs := items.value;
    var g := b => BatchRow(run, b);
    var rows := [];
    var j := 0;
    while j < |xs|
      invariant j <= |xs|
      invariant Traverse(xs[..j], g) == Ok(rows)
    {
      TraverseStep(xs, g, j);
      var row := BatchRow(run, xs[j]);
      if row.Err? {
        TraverseFirstError(xs, g, j);
        return Err(());
      }
      rows := rows + [row.value];
      j := j + 1;
    }
    assert xs[..j] == xs;
    r := Ok(rows);
  }

  // ---------------------------------------------------------------------------
  // get_test_summary
  // ---------------------------------------------------------------------------

  /** `f"{provider} {instance} (batch:{batch}, conn:{conn})"`. */
  function SummaryText(provider: Value, instance: Value, batch: Value, conn: Value): string {
    Stringify(provider) + " " + Stringify(instance) + " (batch" + ":" + Stringify(batch) + ", conn" + ":" + Stringify(conn) + ")"
  }

  /** `get_test_summary(test_run)`, with the defaults Unknown, Unknown, 0 and 0. */
  function Summary(run: Dict): string {
    SummaryText(GetOr(run, "cloud_provider", Str("Unknown")), GetOr(run, "instance_type", Str("Unknown")),
                GetOr(run, "batch_size", Int(0)), GetOr(run, "num_connections", Int(0)))
  }

  /** A run that records none of the four settings is summarised as provider and instance "Unknown", batch 0 and conn 0. */
  lemma SummaryDefaults(run: Dict)
    requires !HasKey(run, "cloud_provider") && !HasKey(run, "instance_type")
    requires !HasKey(run, "batch_size") && !HasKey(run, "num_connections")
    ensures Summary(run) == SummaryText(Str("Unknown"), Str("Unknown"), Int(0), Int(0))
    ensures Stringify(Int(0)) == "0"
  {
    assert NatToString(0) == "0";
  }

  /**
   * If two strings read `h:b<mid>:c<tail>` with no colon in `b`, `c`, `mid`
   * and `tail`, the two `b` parts agree and so do the two `c` parts.
   */
  lemma TwoColonFields(h1: string, b1: string, c1: string, h2: string, b2: string, c2: string, mid: string, tail: string)
    requires h1 + ":" + b1 + mid + ":" + c1 + tail == h2 + ":" + b2 + mid + ":" + c2 + tail
    requires ':' !in b1 && ':' !in b2 && ':' !in c1 && ':' !in c2 && ':' !in mid && ':' !in tail
    ensures b1 == b2 && c1 == c2
  {
    var x1, x2 := h1 + ":" + b1 + mid, h2 + ":" + b2 + mid;
    assert h1 + ":" + b1 + mid + ":" + c1 + tail == x1 + [':'] + (c1 + tail);
    assert h2 + ":" + b2 + mid + ":" + c2 + tail == x2 + [':'] + (c2 + tail);
    SplitAtLastSeparator(x1, c1 + tail, x2, c2 + tail, ':');
    assert c1 == (c1 + tail)[..|c1|];
    assert c2 == (c2 + tail)[..|c2|];
    assert x1 == h1 + [':'] + (b1 + mid);
    assert x2 == h2 + [':'] + (b2 + mid);
    SplitAtLastSeparator(h1, b1 + mid, h2, b2 + mid, ':');
    assert b1 == (b1 + mid)[..|b1|];
    assert b2 == (b2 + mid)[..|b2|];
  }

  /**
   * A summary names its configuration: of two runs with integer batch sizes
   * and connection counts, equal summaries have equal batch sizes and equal
   * connection counts.
   */
  lemma SummaryDeterminesConfig(p1: Value, i1: Value, b1: int, c1: int, p2: Value, i2: Value, b2: int, c2: int)
    requires SummaryText(p1, i1, Int(b1), Int(c1)) == SummaryText(p2, i2, Int(b2), Int(c2))
    ensures b1 == b2 && c1 == c2
  {
    NoColonInNumber(b1);
    NoColonInNumber(b2);
    NoColonInNumber(c1);
    NoColonInNumber(c2);
    TwoColonFields(Stringify(p1) + " " + Stringify(i1) + " (batch", IntToString(b1), IntToString(c1),
                   Stringify(p2) + " " + Stringify(i2) + " (batch", IntToString(b2), IntToString(c2), ", conn", ")");
    IntToStringInjective(b1, b2);
    IntToStringInjective(c1, c2);
  }

  lemma NoColonInNumber(n: int)
    ensures ':' !in IntToString(n)
  {
    var s := IntToString(n);
    forall k | 0 <= k < |s| ensures s[k] != ':' {
      assert IsDigitChar(s[k]) || s[k] == '-';
    }
  }
}
