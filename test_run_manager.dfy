/**
 * The index of migration test runs (`TestRunManager` of
 * services/migration/test_run_manager.py): one record per test run in the
 * `test_runs` list of the index file, appended when a run starts and updated
 * in place when it completes or fails, with lookups, filters and the most
 * recent runs first.
 */
module TestRuns {
  import opened Common
  import opened Strings
  import opened Json
  import opened Sorting

  // ------------------------------------------------------------------ test id

  /** `instance_type.replace(".", "_").replace(" ", "_")`. */
  function CleanInstance(instance: string): string {
    ReplaceChar(ReplaceChar(instance, '.', '_'), ' ', '_')
  }

  /** The cleaned instance name has no dot and no space; every other character stays in place. */
  lemma CleanInstanceSpec(instance: string)
    ensures |CleanInstance(instance)| == |instance|
    ensures forall i :: 0 <= i < |instance| ==>
      CleanInstance(instance)[i] == if instance[i] == '.' || instance[i] == ' ' then '_' else instance[i]
    ensures '.' !in CleanInstance(instance) && ' ' !in CleanInstance(instance)
  {
    var c := CleanInstance(instance);
    forall i | 0 <= i < |c| ensures c[i] != '.' && c[i] != ' ' {
    }
  }

  /**
   * `generate_test_id`: `{stamp}_{provider}_{instance}_b{batch}_c{conn}`,
   * `stamp` being the clock's `%Y%m%d_%H%M%S` reading.
   */
  function TestId(stamp: string, provider: string, instance: string, batchSize: int, numConnections: int): string {
    stamp + "_" + provider + "_" + CleanInstance(instance) + "_b" + IntToString(batchSize) + "_c" + IntToString(numConnections)
  }

  /** A test id names its batch size and connection count: two runs that differ in either get different ids. */
  lemma TestIdDeterminesSettings(s1: string, p1: string, i1: string, b1: int, c1: int,
                                 s2: string, p2: string, i2: string, b2: int, c2: int)
    requires TestId(s1, p1, i1, b1, c1) == TestId(s2, p2, i2, b2, c2)
    ensures b1 == b2 && c1 == c2
  {
    var h1 := s1 + "_" + p1 + "_" + CleanInstance(i1);
    var h2 := s2 + "_" + p2 + "_" + CleanInstance(i2);
    var bs1, bs2 := IntToString(b1), IntToString(b2);
    var cs1, cs2 := IntToString(c1), IntToString(c2);
    NoSeparatorInNumber(b1);
    NoSeparatorInNumber(b2);
    NoSeparatorInNumber(c1);
    NoSeparatorInNumber(c2);
    assert TestId(s1, p1, i1, b1, c1) == (h1 + "_b" + bs1) + ['_'] + ("c" + cs1);
    assert TestId(s2, p2, i2, b2, c2) == (h2 + "_b" + bs2) + ['_'] + ("c" + cs2);
    SplitAtLastSeparator(h1 + "_b" + bs1, "c" + cs1, h2 + "_b" + bs2, "c" + cs2, '_');
    assert cs1 == ("c" + cs1)[1..] && cs2 == ("c" + cs2)[1..];
    IntToStringInjective(c1, c2);
    assert h1 + "_b" + bs1 == h1 + ['_'] + ("b" + bs1);
    assert h2 + "_b" + bs2 == h2 + ['_'] + ("b" + bs2);
    SplitAtLastSeparator(h1, "b" + bs1, h2, "b" + bs2, '_');
    assert bs1 == ("b" + bs1)[1..] && bs2 == ("b" + bs2)[1..];
    IntToStringInjective(b1, b2);
  }

  lemma NoSeparatorInNumber(n: int)
    ensures '_' !in IntToString(n) && '_' !in "c" + IntToString(n) && '_' !in "b" + IntToString(n)
  {
    var s := IntToString(n);
    forall k | 0 <= k < |s| ensures s[k] != '_' {
      assert IsDigitChar(s[k]) || s[k] == '-';
    }
  }

  // ---------------------------------------------------------------- test runs

  /** The `TestRun` dataclass; the four optional fields are JSON values (`Null` for `None`). */
  datatype TestRun = TestRun(testId: string, timestamp: string, cloudProvider: string, instanceType: string,
                             batchSize: int, numConnections: int, status: string, outputDir: string,
                             totalRecords: Value, totalDurationSeconds: Value, averageRecordsPerSecond: Value,
                             errorMessage: Value)

  /** `asdict(run)`: the dataclass fields as dict keys, in declaration order. */
  function ToDict(r: TestRun): Dict {
    [Entry("test_id", Str(r.testId)), Entry("timestamp", Str(r.timestamp)),
     Entry("cloud_provider", Str(r.cloudProvider)), Entry("instance_type", Str(r.instanceType)),
     Entry("batch_size", Int(r.batchSize)), Entry("num_connections", Int(r.numConnections)),
     Entry("status", Str(r.status)), Entry("output_dir", Str(r.outputDir)),
     Entry("total_records", r.totalRecords), Entry("total_duration_seconds", r.totalDurationSeconds),
     Entry("average_records_per_second", r.averageRecordsPerSecond), Entry("error_message", r.errorMessage)]
  }

  /** The run `create_test_run` makes; `stamp` and `now` are the two clock readings it takes. */
  function NewRun(stamp: string, now: string, provider: string, instance: string, batchSize: int,
                  numConnections: int): TestRun
  {
    var id := TestId(stamp, provider, instance, batchSize, numConnections);
    TestRun(id, now, provider, instance, batchSize, numConnections, "running", "runs/" + id, Null, Null, Null, Null)
  }

  /** A run's dict holds its id, its start time and its provider under their own keys. */
  lemma ToDictNames(r: TestRun)
    ensures var d := ToDict(r);
      Get(d, "test_id") == Some(Str(r.testId)) && Get(d, "timestamp") == Some(Str(r.timestamp)) &&
      Get(d, "cloud_provider") == Some(Str(r.cloudProvider))
  {
    var d := ToDict(r);
    GetAt(d, 0, "test_id");
    GetAt(d, 1, "timestamp");
    GetAt(d, 2, "cloud_provider");
  }

  /** A run's dict holds its settings, its status and its directory under their own keys. */
  lemma ToDictState(r: TestRun)
    ensures var d := ToDict(r);
      Get(d, "batch_size") == Some(Int(r.batchSize)) && Get(d, "num_connections") == Some(Int(r.numConnections)) &&
      Get(d, "status") == Some(Str(r.status)) && Get(d, "output_dir") == Some(Str(r.outputDir))
  {
    var d := ToDict(r);
    GetAt(d, 4, "batch_size");
    GetAt(d, 5, "num_connections");
    GetAt(d, 6, "status");
    GetAt(d, 7, "output_dir");
  }

  /**
   * A new run is "running", lives under `runs/{test_id}`, and records the
   * settings it was started with and no totals or error yet.
   */
  lemma NewRunSpec(stamp: string, now: string, provider: string, instance: string, batchSize: int, numConnections: int)
    ensures var r := NewRun(stamp, now, provider, instance, batchSize, numConnections);
      var d := ToDict(r);
      Get(d, "test_id") == Some(Str(TestId(stamp, provider, instance, batchSize, numConnections))) &&
      Get(d, "timestamp") == Some(Str(now)) && Get(d, "cloud_provider") == Some(Str(provider)) &&
      Get(d, "status") == Some(Str("running")) && Get(d, "output_dir") == Some(Str("runs/" + r.testId)) &&
      Get(d, "batch_size") == Some(Int(batchSize)) && Get(d, "num_connections") == Some(Int(numConnections)) &&
      r.totalRecords == Null && r.totalDurationSeconds == Null && r.averageRecordsPerSecond == Null &&
      r.errorMessage == Null
  {
    var r := NewRun(stamp, now, provider, instance, batchSize, numConnections);
    ToDictNames(r);
    ToDictState(r);
  }

  // ----------------------------------------------------------------- lookups

  /**
   * The loop `for test_run in test_runs: if test_run["test_id"] == test_id`:
   * the position of the first run with the id, `None` if there is none, and
   * `Err` for the `KeyError` of a run without `test_id` met on the way.
   */
  function FirstMatch(runs: seq<Dict>, id: string): (r: Result<Option<nat>, ()>)
    ensures r == Ok(None) ==> forall j :: 0 <= j < |runs| ==> Get(runs[j], "test_id").Some? && Get(runs[j], "test_id") != Some(Str(id))
    ensures r.Ok? && r.value.Some? ==>
      r.value.value < |runs| && Get(runs[r.value.value], "test_id") == Some(Str(id)) &&
      forall j :: 0 <= j < r.value.value ==> Get(runs[j], "test_id").Some? && Get(runs[j], "test_id") != Some(Str(id))
    ensures r.Err? ==> exists j :: 0 <= j < |runs| && Get(runs[j], "test_id").None?
    decreases |runs|
  {
    if |runs| == 0 then Ok(None)
    else match Get(runs[0], "test_id")
      case None => Err(())
      case Some(v) =>
        if v == Str(id) then Ok(Some(0))
        else match FirstMatch(runs[1..], id)
          case Err(_) => Err(())
          case Ok(None) => Ok(None)
          case Ok(Some(j)) => Ok(Some(j + 1))
  }

  /** `update_test_run(test_id, **updates)` on the list of runs: only the first run with the id changes. */
  function UpdateRuns(runs: seq<Dict>, id: string, updates: Dict): Result<seq<Dict>, ()> {
    match FirstMatch(runs, id)
      case Err(_) => Err(())
      case Ok(None) => Ok(runs)
      case Ok(Some(i)) => Ok(runs[i := Update(runs[i], updates)])
  }

  /**
   * An update changes the first run with the id, and there exactly the
   * updated keys; every other run stays as it was, and with no such run the
   * list is unchanged.
   */
  lemma UpdateRunsSpec(runs: seq<Dict>, id: string, updates: Dict, k: string)
    requires DistinctKeys(updates)
    ensures var r := UpdateRuns(runs, id, updates);
      var m := FirstMatch(runs, id);
      (r.Err? <==> m.Err?) &&
      (r.Ok? ==> |r.value| == |runs|) &&
      (m == Ok(None) ==> r == Ok(runs)) &&
      (r.Ok? && m.value.Some? ==>
        var i := m.value.value;
        (forall j :: 0 <= j < |runs| && j != i ==> r.value[j] == runs[j]) &&
        Get(r.value[i], k) == if HasKey(updates, k) then Get(updates, k) else Get(runs[i], k))
  {
    var m := FirstMatch(runs, id);
    if m.Ok? && m.value.Some? {
      GetUpdate(runs[m.value.value], updates, k);
    }
  }

  /** `complete_test_run`'s updates. */
  function CompleteUpdates(totalRecords: int, duration: Value, rate: Value): Dict {
    [Entry("status", Str("completed")), Entry("total_records", Int(totalRecords)),
     Entry("total_duration_seconds", duration), Entry("average_records_per_second", rate)]
  }

  /** `error_test_run`'s updates. */
  function ErrorUpdates(message: string): Dict {
    [Entry("status", Str("error")), Entry("error_message", Str(message))]
  }

  /** Completing a run sets its status and its three totals and nothing else. */
  lemma CompleteUpdatesSpec(totalRecords: int, duration: Value, rate: Value, k: string)
    ensures var u := CompleteUpdates(totalRecords, duration, rate);
      DistinctKeys(u) &&
      Get(u, "status") == Some(Str("completed")) && Get(u, "total_records") == Some(Int(totalRecords)) &&
      Get(u, "total_duration_seconds") == Some(duration) && Get(u, "average_records_per_second") == Some(rate) &&
      (HasKey(u, k) <==> k in ["status", "total_records", "total_duration_seconds", "average_records_per_second"])
  {
    var u := CompleteUpdates(totalRecords, duration, rate);
    GetAt(u, 0, "status");
    GetAt(u, 1, "total_records");
    GetAt(u, 2, "total_duration_seconds");
    GetAt(u, 3, "average_records_per_second");
    if k !in ["status", "total_records", "total_duration_seconds", "average_records_per_second"] {
      assert forall j :: 0 <= j < |u| ==> u[j].key != k;
    }
  }

  /** Failing a run sets its status and its message and nothing else. */
  lemma ErrorUpdatesSpec(message: string, k: string)
    ensures var u := ErrorUpdates(message);
      DistinctKeys(u) &&
      Get(u, "status") == Some(Str("error")) && Get(u, "error_message") == Some(Str(message)) &&
      (HasKey(u, k) <==> k == "status" || k == "error_message")
  {
    var u := ErrorUpdates(message);
    GetAt(u, 0, "status");
    GetAt(u, 1, "error_message");
    if k != "status" && k != "error_message" {
      assert forall j :: 0 <= j < |u| ==> u[j].key != k;
    }
  }

  // ----------------------------------------------------------------- filters

  /** `[run for run in runs if run.get(key) == v]`. */
  function WithField(runs: seq<Dict>, key: string, v: Value): seq<Dict>
    decreases |runs|
  {
    if |runs| == 0 then []
    else WithField(runs[..|runs| - 1], key, v) + (if Get(runs[|runs| - 1], key) == Some(v) then [runs[|runs| - 1]] else [])
  }

  /** The filter keeps exactly the runs whose `key` is `v`. */
  lemma {:induction false} WithFieldSpec(runs: seq<Dict>, key: string, v: Value)
    ensures |WithField(runs, key, v)| <= |runs|
    ensures forall d :: d in WithField(runs, key, v) <==> d in runs && Get(d, key) == Some(v)
    decreases |runs|
  {
    if |runs| > 0 {
      var init := runs[..|runs| - 1];
      WithFieldSpec(init, key, v);
      assert runs == init + [runs[|runs| - 1]];
    }
  }

  /** The filter keeps the order of the runs: filtering two parts one after the other is filtering the whole. */
  lemma {:induction false} WithFieldConcat(a: seq<Dict>, b: seq<Dict>, key: string, v: Value)
    ensures WithField(a + b, key, v) == WithField(a, key, v) + WithField(b, key, v)
    decreases |b|
  {
    if |b| == 0 {
      assert a + b == a;
    } else {
      var b' := b[..|b| - 1];
      assert (a + b)[..|a + b| - 1] == a + b';
      assert (a + b)[|a + b| - 1] == b[|b| - 1];
      WithFieldConcat(a, b', key, v);
    }
  }

  // ------------------------------------------------------------ recent runs

  /** A run's sort key, `run.get("timestamp", "")`, when it is a string. */
  function Stamp(d: Dict): string {
    match Get(d, "timestamp")
      case Some(Str(s)) => s
      case _ => ""
  }

  /** The key is a string: an absent timestamp (read as `""`) or a string one. */
  predicate StringKeyed(d: Dict) {
    Get(d, "timestamp").None? || Get(d, "timestamp").value.Str?
  }

  /** The key is a number: an integer, a boolean or a float timestamp. */
  predicate NumberKeyed(d: Dict) {
    Get(d, "timestamp").Some? && Numeric(Get(d, "timestamp").value).Some?
  }

  /** A run's sort key when it is a number. */
  function NumberStamp(d: Dict): real {
    if NumberKeyed(d) then Numeric(Get(d, "timestamp").value).value else 0.0
  }

  /** The order of `sorted(..., reverse=True)` on string keys: later timestamps first. */
  predicate Later(a: Dict, b: Dict) {
    LexLe(Stamp(b), Stamp(a))
  }

  /** The same order on number keys: larger numbers first. */
  predicate LaterNumber(a: Dict, b: Dict) {
    NumberStamp(b) <= NumberStamp(a)
  }

  lemma LaterOrder()
    ensures TotalPreorder(Later)
  {
    forall a: Dict, b: Dict ensures Later(a, b) || Later(b, a) {
      LexLeTotal(Stamp(a), Stamp(b));
    }
    forall a: Dict, b: Dict, c: Dict | Later(a, b) && Later(b, c) ensures Later(a, c) {
      LexLeTransitive(Stamp(c), Stamp(b), Stamp(a));
    }
  }

  lemma LaterNumberOrder()
    ensures TotalPreorder(LaterNumber)
  {
  }

  /**
   * `get_recent_test_runs(limit)`: the runs sorted by timestamp, latest
   * first, cut to `limit`. `sorted` compares keys only when there are two
   * runs or more, and every two runs that end up side by side have been
   * compared; so it gets through exactly when all keys are strings or all
   * are numbers, and otherwise raises the `TypeError` of comparing a string
   * with a number, or a value Python cannot order (`Err`).
   */
  function RecentRuns(runs: seq<Dict>, limit: int): Result<seq<Dict>, ()> {
    if forall i :: 0 <= i < |runs| ==> StringKeyed(runs[i]) then Ok(SliceTo(SortBy(runs, Later), limit))
    else if forall i :: 0 <= i < |runs| ==> NumberKeyed(runs[i]) then Ok(SliceTo(SortBy(runs, LaterNumber), limit))
    else if |runs| <= 1 then Ok(SliceTo(runs, limit))
    else Err(())
  }

  /**
   * The recent runs are found exactly when there is at most one run, or all
   * keys are strings, or all are numbers; they are then `min(limit, n)` of
   * the runs (for a non-negative limit), none of them twice.
   */
  lemma RecentRunsSpec(runs: seq<Dict>, limit: int)
    ensures RecentRuns(runs, limit).Ok? <==>
      |runs| <= 1 || (forall i :: 0 <= i < |runs| ==> StringKeyed(runs[i])) ||
      (forall i :: 0 <= i < |runs| ==> NumberKeyed(runs[i]))
    ensures RecentRuns(runs, limit).Ok? ==>
      var r := RecentRuns(runs, limit).value;
      (limit >= 0 ==> |r| == Min(limit, |runs|)) && multiset(r) <= multiset(runs)
  {
    if RecentRuns(runs, limit).Ok? {
      var sorted := if forall i :: 0 <= i < |runs| ==> StringKeyed(runs[i]) then SortBy(runs, Later)
                    else if forall i :: 0 <= i < |runs| ==> NumberKeyed(runs[i]) then SortBy(runs, LaterNumber)
                    else runs;
      assert multiset(sorted) == multiset(runs);
      assert RecentRuns(runs, limit).value == SliceTo(sorted, limit);
      SliceToSubMultiset(sorted, limit);
    }
  }

  /** With string keys, the recent runs come latest first, and no run left out is later than one returned. */
  lemma RecentRunsByString(runs: seq<Dict>, limit: int)
    requires forall i :: 0 <= i < |runs| ==> StringKeyed(runs[i])
    ensures RecentRuns(runs, limit).Ok?
    ensures var r := RecentRuns(runs, limit).value;
      var sorted := SortBy(runs, Later);
      (forall i, j :: 0 <= i < j < |r| ==> LexLe(Stamp(r[j]), Stamp(r[i]))) &&
      (forall i, j :: 0 <= i < |r| <= j < |sorted| ==> LexLe(Stamp(sorted[j]), Stamp(r[i])))
  {
    var sorted := SortBy(runs, Later);
    LaterOrder();
    SortBySorted(runs, Later);
    PrefixOfSorted(sorted, Later, |SliceTo(sorted, limit)|);
  }

  /** With number keys, the recent runs come largest first, and no run left out has a larger key than one returned. */
  lemma RecentRunsByNumber(runs: seq<Dict>, limit: int)
    requires |runs| > 0 && forall i :: 0 <= i < |runs| ==> NumberKeyed(runs[i])
    ensures RecentRuns(runs, limit).Ok?
    ensures var r := RecentRuns(runs, limit).value;
      var sorted := SortBy(runs, LaterNumber);
      (forall i, j :: 0 <= i < j < |r| ==> NumberStamp(r[j]) <= NumberStamp(r[i])) &&
      (forall i, j :: 0 <= i < |r| <= j < |sorted| ==> NumberStamp(sorted[j]) <= NumberStamp(r[i]))
  {
    assert !StringKeyed(runs[0]);
    var sorted := SortBy(runs, LaterNumber);
    LaterNumberOrder();
    SortBySorted(runs, LaterNumber);
    PrefixOfSorted(sorted, LaterNumber, |SliceTo(sorted, limit)|);
  }

  /** A prefix of a sorted sequence: a sub-multiset, in order, and ahead of the rest. */
  lemma PrefixOfSorted(sorted: seq<Dict>, before: (Dict, Dict) -> bool, m: nat)
    requires Sorted(sorted, before) && m <= |sorted|
    ensures var r := sorted[..m];
      multiset(r) <= multiset(sorted) &&
      (forall i, j :: 0 <= i < j < |r| ==> before(r[i], r[j])) &&
      (forall i, j :: 0 <= i < |r| <= j < |sorted| ==> before(r[i], sorted[j]))
  {
    var r := sorted[..m];
    SortedPrefixIsTop(sorted, before, m);
    assert sorted == r + sorted[m..];
    assert multiset(sorted) == multiset(r) + multiset(sorted[m..]);
  }

  // ----------------------------------------------------------------- manager

  class TestRunManager {
    /** The `test_runs` list of the index file. */
    var runs: seq<Dict>

    /** `_init_index`: an existing index is kept, a missing one starts empty. */
    constructor (existing: Option<seq<Dict>>)
      ensures existing.Some? ==> runs == existing.value
      ensures existing.None? ==> runs == []
    {
      runs := if existing.Some? then existing.value else [];
    }

    /** `create_test_run`: one new "running" run appended at the end; nothing else changes. */
    method CreateTestRun(stamp: string, now: string, provider: string, instance: string, batchSize: int,
                         numConnections: int) returns (r: TestRun)
      modifies this
      ensures r == NewRun(stamp, now, provider, instance, batchSize, numConnections)
      ensures runs == old(runs) + [ToDict(r)]
    {
      var id := TestId(stamp, provider, instance, batchSize, numConnections);
      r := TestRun(id, now, provider, instance, batchSize, numConnections, "running", "runs/" + id, Null, Null, Null, Null);
      runs := runs + [ToDict(r)];
    }

    /** The search loop of `update_test_run` and `get_test_run`. */
    method FindRun(id: string) returns (r: Result<Option<nat>, ()>)
      ensures r == FirstMatch(runs, id)
    {
      var i := 0;
      while i < |runs|
        invariant 0 <= i <= |runs|
        invariant FirstMatch(runs, id) == Shifted(FirstMatch(runs[i..], id), i)
      {
        var v := Get(runs[i], "test_id");
        if v.None? {
          FirstMatchStep(runs, id, i);
          return Err(());
        }
        if v.value == Str(id) {
          FirstMatchStep(runs, id, i);
          return Ok(Some(i));
        }
        FirstMatchStep(runs, id, i);
        i := i + 1;
      }
      assert runs[i..] == [];
      r := Ok(None);
    }

    /** `update_test_run(test_id, **updates)`: the index after `UpdateRuns`; unchanged if it raised. */
    method UpdateTestRun(id: string, updates: Dict) returns (r: Result<(), ()>)
      modifies this
      ensures r.Ok? <==> UpdateRuns(old(runs), id, updates).Ok?
      ensures runs == if r.Ok? then UpdateRuns(old(runs), id, updates).value else old(runs)
    {
      var m := FindRun(id);
      if m.Err? {
        return Err(());
      }
      if m.value.Some? {
        var i := m.value.value;
        runs := runs[i := Update(runs[i], updates)];
      }
      r := Ok(());
    }

    method CompleteTestRun(id: string, totalRecords: int, duration: Value, rate: Value) returns (r: Result<(), ()>)
      modifies this
      ensures r.Ok? <==> UpdateRuns(old(runs), id, CompleteUpdates(totalRecords, duration, rate)).Ok?
      ensures runs == if r.Ok? then UpdateRuns(old(runs), id, CompleteUpdates(totalRecords, duration, rate)).value
                      else old(runs)
    {
      r := UpdateTestRun(id, CompleteUpdates(totalRecords, duration, rate));
    }

    method ErrorTestRun(id: string, message: string) returns (r: Result<(), ()>)
      modifies this
      ensures r.Ok? <==> UpdateRuns(old(runs), id, ErrorUpdates(message)).Ok?
      ensures runs == if r.Ok? then UpdateRuns(old(runs), id, ErrorUpdates(message)).value else old(runs)
    {
      r := UpdateTestRun(id, ErrorUpdates(message));
    }

    /** `get_test_run(test_id)`: the first run with the id, or `None`. */
    method GetTestRun(id: string) returns (r: Result<Option<Dict>, ()>)
      ensures r.Err? <==> FirstMatch(runs, id).Err?
      ensures r.Ok? ==> (r.value.None? <==> FirstMatch(runs, id).value.None?)
      ensures r.Ok? && r.value.Some? ==> r.value.value == runs[FirstMatch(runs, id).value.value]
    {
      var m := FindRun(id);
      if m.Err? {
        return Err(());
      }
      if m.value.None? {
        return Ok(None);
      }
      r := Ok(Some(runs[m.value.value]));
    }

    /** `get_test_runs_by_status(status)`. */
    function RunsByStatus(status: string): seq<Dict>
      reads this
    {
      WithField(runs, "status", Str(status))
    }

    /** `get_test_runs_by_provider(provider)`. */
    function RunsByProvider(provider: string): seq<Dict>
      reads this
    {
      WithField(runs, "cloud_provider", Str(provider))
    }

    /** `get_recent_test_runs(limit)`. */
    function RecentTestRuns(limit: int): Result<seq<Dict>, ()>
      reads this
    {
      RecentRuns(runs, limit)
    }
  }

  /** A position found in `runs[i..]`, counted in `runs`. */
  function Shifted(r: Result<Option<nat>, ()>, i: nat): Result<Option<nat>, ()> {
    match r
      case Ok(Some(j)) => Ok(Some(j + i))
      case _ => r
  }

  /** One step of the search: the run at `i` decides, or the search goes on from `i + 1`. */
  lemma FirstMatchStep(runs: seq<Dict>, id: string, i: nat)
    requires i < |runs|
    ensures var v := Get(runs[i], "test_id");
      (v.None? ==> Shifted(FirstMatch(runs[i..], id), i) == Err(())) &&
      (v == Some(Str(id)) ==> Shifted(FirstMatch(runs[i..], id), i) == Ok(Some(i))) &&
      (v.Some? && v != Some(Str(id)) ==>
        Shifted(FirstMatch(runs[i..], id), i) == Shifted(FirstMatch(runs[i + 1..], id), i + 1))
  {
    assert runs[i..][1..] == runs[i + 1..];
  }
}
