/**
 * `DataProcessor` (services/data_processor.py): the records cut into chunks
 * of `chunk_size`, each cloud loaded chunk by chunk after a connection test
 * and a table creation, the per-cloud results concatenated in cloud order,
 * grouped by cloud and counted.
 *
 * The database manager is a `Backend`: its verdicts on `test_connection` and
 * `create_table` for a cloud, and the `InsertResult` of `batch_insert` for a
 * chunk. `ManagerBackend` is the one `DatabaseManager` gives.
 */
module DataProcessing {
  import opened Common
  import opened Json
  import opened Strings
  import opened Batching
  import opened DbManager

  /** `DataProcessor`'s default `chunk_size`. */
  const DefaultChunkSize: int := 10

  datatype Backend = Backend(
    connects: string -> bool,
    createsTable: string -> bool,
    insert: (string, int, seq<Value>) -> InsertResult)

  /**
   * The backend `DatabaseManager` gives: in mock mode the connection test and
   * each insert draw their verdicts, off mock mode everything succeeds, and
   * the table is created in both modes.
   */
  function ManagerBackend(mock: bool, connectDraw: string -> bool, insertDraw: (string, int) -> MockDraw): Backend {
    Backend(
      c => TestConnection(mock, connectDraw(c)),
      c => CreateTable(mock),
      (c, id, rs) => BatchInsert(c, id, rs, if mock then Some(insertDraw(c, id)) else None))
  }

  // ---------------------------------------------------------------------------
  // Loading and chunking

  /** `load_json_data` after `json.load`: a list as it is, anything else wrapped in a list. */
  function LoadJsonData(data: Value): (r: seq<Value>)
    ensures data.List? ==> r == data.items
    ensures !data.List? ==> r == [data]
  {
    if data.List? then data.items else [data]
  }

  /**
   * `list(chunk_data(data))`: `range(0, len(data), chunk_size)` raises for a
   * chunk size of 0 and is empty for a negative one.
   */
  function ChunkData(data: seq<Value>, size: int): Result<seq<seq<Value>>, ()> {
    if size == 0 then Err(())
    else if size < 0 then Ok([])
    else Ok(Chunks(data, size))
  }

  /**
   * Chunking fails exactly for size 0. For a positive size the chunks
   * concatenate back to the data, there are `ceil(len / size)` of them, and
   * each is full except a non-empty last one.
   */
  lemma ChunkDataSpec(data: seq<Value>, size: int)
    ensures ChunkData(data, size).Err? <==> size == 0
    ensures size < 0 ==> ChunkData(data, size) == Ok([])
    ensures size > 0 ==>
      var cs := ChunkData(data, size).value;
      Flatten(cs) == data && |cs| == CeilDiv(|data|, size) &&
      forall k :: 0 <= k < |cs| ==>
        0 < |cs[k]| && (k < |cs| - 1 ==> |cs[k]| == size) && (k == |cs| - 1 ==> |cs[k]| == |data| - k * size)
  {
    if size > 0 {
      FlattenChunks(data, size);
      ChunkCountIsCeilDiv(data, size);
      forall k | 0 <= k < |Chunks(data, size)|
        ensures k < |Chunks(data, size)| - 1 ==> |Chunks(data, size)[k]| == size
        ensures k == |Chunks(data, size)| - 1 ==> |Chunks(data, size)[k]| == |data| - k * size
      {
        ChunkSizes(data, size, k);
      }
    }
  }

  // ---------------------------------------------------------------------------
  // One cloud

  function ConnectFailure(cloud: string): InsertResult {
    InsertResult(cloud, 0, 0, false, Some("Failed to connect to " + cloud + " database"))
  }

  function TableFailure(cloud: string): InsertResult {
    InsertResult(cloud, 0, 0, false, Some("Failed to create table in " + cloud + " database"))
  }

  /** One insert per chunk, numbered from 1. */
  function ChunkResults(b: Backend, cloud: string, cs: seq<seq<Value>>): (rs: seq<InsertResult>)
    ensures |rs| == |cs|
  {
    seq(|cs|, k requires 0 <= k < |cs| => b.insert(cloud, k + 1, cs[k]))
  }

  /** `process_single_cloud(cloud, data)`. */
  function CloudResults(b: Backend, size: int, cloud: string, data: seq<Value>): Result<seq<InsertResult>, ()> {
    if !b.connects(cloud) then Ok([ConnectFailure(cloud)])
    else if !b.createsTable(cloud) then Ok([TableFailure(cloud)])
    else match ChunkData(data, size)
      case Err(_) => Err(())
      case Ok(cs) => Ok(ChunkResults(b, cloud, cs))
  }

  /**
   * A cloud that fails its connection test or its table creation has exactly
   * one result, a failure with chunk id 0 and no records, and no chunk is
   * inserted. Otherwise it has one result per chunk, the insert of chunk
   * `k + 1` at position `k`; only a chunk size of 0 raises.
   */
  lemma CloudResultsSpec(b: Backend, size: int, cloud: string, data: seq<Value>)
    ensures var r := CloudResults(b, size, cloud, data);
      (!b.connects(cloud) || !b.createsTable(cloud) ==>
        r.Ok? && |r.value| == 1 &&
        r.value[0].cloud == cloud && r.value[0].chunkId == 0 && r.value[0].recordsCount == 0 &&
        !r.value[0].success && r.value[0].errorMessage.Some?) &&
      (b.connects(cloud) && b.createsTable(cloud) ==>
        (r.Err? <==> size == 0) &&
        (r.Ok? ==>
          var cs := ChunkData(data, size).value;
          |r.value| == |cs| &&
          forall k :: 0 <= k < |cs| ==> r.value[k] == b.insert(cloud, k + 1, cs[k])))
  {
  }

  /**
   * With `DatabaseManager` as the backend, a cloud that connects has one
   * result per chunk carrying its cloud, its chunk id `k + 1` and the chunk's
   * size; off mock mode every one of them succeeds.
   */
  lemma ManagerCloudResults(mock: bool, connectDraw: string -> bool, insertDraw: (string, int) -> MockDraw,
                            size: int, cloud: string, data: seq<Value>)
    requires size > 0 && TestConnection(mock, connectDraw(cloud))
    ensures var b := ManagerBackend(mock, connectDraw, insertDraw);
      var r := CloudResults(b, size, cloud, data);
      var cs := Chunks(data, size);
      r.Ok? && |r.value| == |cs| &&
      forall k :: 0 <= k < |cs| ==>
        r.value[k].cloud == cloud && r.value[k].chunkId == k + 1 && r.value[k].recordsCount == |cs[k]| &&
        (!mock ==> r.value[k].success)
  {
    var b := ManagerBackend(mock, connectDraw, insertDraw);
    var cs := Chunks(data, size);
    forall k | 0 <= k < |cs|
      ensures var x := CloudResults(b, size, cloud, data).value[k];
        x.cloud == cloud && x.chunkId == k + 1 && x.recordsCount == |cs[k]| && (!mock ==> x.success)
    {
      BatchInsertSpec(cloud, k + 1, cs[k], if mock then Some(insertDraw(cloud, k + 1)) else None);
    }
  }

  // ---------------------------------------------------------------------------
  // All clouds

  /** Python's `sum(1 for r in results if r.success)`. */
  function Successes(rs: seq<InsertResult>): nat
    decreases |rs|
  {
    if |rs| == 0 then 0 else Successes(rs[..|rs| - 1]) + (if rs[|rs| - 1].success then 1 else 0)
  }

  /** The results that failed. */
  function Failures(rs: seq<InsertResult>): nat
    decreases |rs|
  {
    if |rs| == 0 then 0 else Failures(rs[..|rs| - 1]) + (if rs[|rs| - 1].success then 0 else 1)
  }

  /** Every result either succeeded or failed. */
  lemma {:induction false} SuccessesAndFailures(rs: seq<InsertResult>)
    ensures Successes(rs) + Failures(rs) == |rs|
    decreases |rs|
  {
    if |rs| > 0 {
      SuccessesAndFailures(rs[..|rs| - 1]);
    }
  }

  /** `ProcessingStats` without the processing time. */
  datatype ProcessingStats = ProcessingStats(
    totalRecords: nat, totalChunks: nat, chunkSize: int,
    successCount: nat, failureCount: int, cloudsTested: seq<string>)

  /** The per-cloud result lists `asyncio.gather` returns: one per cloud, in cloud order. */
  function Gathered(b: Backend, size: int, clouds: seq<string>, data: seq<Value>): Result<seq<seq<InsertResult>>, ()> {
    Traverse(clouds, c => CloudResults(b, size, c, data))
  }

  /**
   * `process_all_clouds(data, clouds)`: the statistics (or the exception) and
   * `self.results` afterwards. The results are cleared first, so a cloud task
   * that raises leaves them empty; the chunk count raises for a chunk size of
   * 0 after the results are in.
   */
  function ProcessAll(b: Backend, size: int, clouds: seq<string>, data: seq<Value>): (Result<ProcessingStats, ()>, seq<InsertResult>) {
    match Gathered(b, size, clouds, data)
      case Err(_) => (Err(()), [])
      case Ok(lists) =>
        var rs := Flatten(lists);
        match ChunkData(data, size)
          case Err(_) => (Err(()), rs)
          case Ok(cs) =>
            var ok := Successes(rs);
            (Ok(ProcessingStats(|data|, |cs| * |clouds|, size, ok, |rs| - ok, clouds)), rs)
  }

  lemma ProcessAllGatherFails(b: Backend, size: int, clouds: seq<string>, data: seq<Value>)
    requires Gathered(b, size, clouds, data).Err?
    ensures ProcessAll(b, size, clouds, data) == (Err(()), [])
  {
  }

  lemma ProcessAllChunksFail(b: Backend, size: int, clouds: seq<string>, data: seq<Value>, lists: seq<seq<InsertResult>>)
    requires Gathered(b, size, clouds, data) == Ok(lists) && ChunkData(data, size).Err?
    ensures ProcessAll(b, size, clouds, data) == (Err(()), Flatten(lists))
  {
  }

  lemma ProcessAllSucceeds(b: Backend, size: int, clouds: seq<string>, data: seq<Value>,
                           lists: seq<seq<InsertResult>>, cs: seq<seq<Value>>)
    requires Gathered(b, size, clouds, data) == Ok(lists) && ChunkData(data, size) == Ok(cs)
    ensures var rs, ok := Flatten(lists), Successes(Flatten(lists));
      ProcessAll(b, size, clouds, data) == (Ok(ProcessingStats(|data|, |cs| * |clouds|, size, ok, |rs| - ok, clouds)), rs)
  {
  }

  /**
   * Processing raises exactly for a chunk size of 0. Otherwise the results are
   * the clouds' own results concatenated in cloud order, `success_count` and
   * `failure_count` count the successes and the failures among them and add
   * up to their number, `total_records` is the number of records and
   * `total_chunks` the chunk count times the number of clouds.
   */
  lemma ProcessAllSpec(b: Backend, size: int, clouds: seq<string>, data: seq<Value>)
    ensures var (r, rs) := ProcessAll(b, size, clouds, data);
      (r.Err? <==> size == 0) &&
      (r.Ok? ==>
        Gathered(b, size, clouds, data).Ok? &&
        var lists := Gathered(b, size, clouds, data).value;
        |lists| == |clouds| &&
        (forall i :: 0 <= i < |clouds| ==> lists[i] == CloudResults(b, size, clouds[i], data).value) &&
        rs == Flatten(lists) &&
        r.value.successCount == Successes(rs) && r.value.failureCount == Failures(rs) &&
        r.value.successCount + r.value.failureCount == |rs| &&
        r.value.totalRecords == |data| && r.value.cloudsTested == clouds &&
        r.value.totalChunks == (if size > 0 then CeilDiv(|data|, size) else 0) * |clouds|)
  {
    var f := c => CloudResults(b, size, c, data);
    TraverseSpec(clouds, f);
    if size == 0 && Gathered(b, size, clouds, data).Ok? {
      assert ChunkData(data, size).Err?;
    }
    if size != 0 {
      assert forall i :: 0 <= i < |clouds| ==> f(clouds[i]).Ok?;
      SuccessesAndFailures(Flatten(Gathered(b, size, clouds, data).value));
      if size > 0 {
        ChunkCountIsCeilDiv(data, size);
      }
    }
  }

  // ---------------------------------------------------------------------------
  // Grouping and summary

  /** One entry of `get_results_by_cloud()`. */
  datatype Group = Group(cloud: string, results: seq<InsertResult>)

  function CloudOf(g: Group): string { g.cloud }

  function GroupIndex(gs: seq<Group>, cloud: string): (r: Option<nat>)
    ensures r.Some? ==> r.value < |gs| && gs[r.value].cloud == cloud
    ensures r.None? ==> forall i :: 0 <= i < |gs| ==> gs[i].cloud != cloud
  {
    FirstKeyed(gs, CloudOf, cloud)
  }

  /** One result filed: its cloud's list grows, or a new list goes last. */
  function AddResult(gs: seq<Group>, r: InsertResult): seq<Group> {
    match GroupIndex(gs, r.cloud)
      case None => gs + [Group(r.cloud, [r])]
      case Some(i) => gs[i := Group(r.cloud, gs[i].results + [r])]
  }

  /** `get_results_by_cloud()`: the clouds in order of first appearance. */
  function GroupByCloud(rs: seq<InsertResult>): seq<Group>
    decreases |rs|
  {
    if |rs| == 0 then [] else AddResult(GroupByCloud(rs[..|rs| - 1]), rs[|rs| - 1])
  }

  /** The results of one cloud, in order. */
  function ResultsFor(rs: seq<InsertResult>, cloud: string): (r: seq<InsertResult>)
    ensures forall x :: x in r <==> x in rs && x.cloud == cloud
    decreases |rs|
  {
    if |rs| == 0 then []
    else ResultsFor(rs[..|rs| - 1], cloud) + (if rs[|rs| - 1].cloud == cloud then [rs[|rs| - 1]] else [])
  }

  predicate DistinctClouds(gs: seq<Group>) {
    forall i, j :: 0 <= i < j < |gs| ==> gs[i].cloud != gs[j].cloud
  }

  /**
   * Every cloud's group holds exactly its results, in their order; a cloud
   * has a group exactly when it has a result, and no cloud has two. So each
   * result sits in exactly one group, the one of its cloud.
   */
  lemma {:induction false} GroupByCloudSpec(rs: seq<InsertResult>, cloud: string)
    ensures DistinctClouds(GroupByCloud(rs))
    ensures GroupIndex(GroupByCloud(rs), cloud).None? <==> ResultsFor(rs, cloud) == []
    ensures GroupIndex(GroupByCloud(rs), cloud).Some? ==>
      GroupByCloud(rs)[GroupIndex(GroupByCloud(rs), cloud).value].results == ResultsFor(rs, cloud)
    decreases |rs|
  {
    if |rs| > 0 {
      var init, r := rs[..|rs| - 1], rs[|rs| - 1];
      GroupByCloudSpec(init, cloud);
      GroupByCloudSpec(init, r.cloud);
      AddResultIndex(GroupByCloud(init), r, cloud);
      if r.cloud != cloud {
        assert ResultsFor(rs, cloud) == ResultsFor(init, cloud) + [];
      }
    }
  }

  /** Where `cloud`'s group is after a result is filed. */
  lemma AddResultIndex(gs: seq<Group>, r: InsertResult, cloud: string)
    requires DistinctClouds(gs)
    ensures DistinctClouds(AddResult(gs, r))
    ensures var g := AddResult(gs, r);
      var i := GroupIndex(gs, cloud);
      (cloud == r.cloud && i.None? ==> GroupIndex(g, cloud) == Some(|gs|) && g[|gs|] == Group(cloud, [r])) &&
      (cloud == r.cloud && i.Some? ==>
        GroupIndex(g, cloud) == i && g[i.value] == Group(cloud, gs[i.value].results + [r])) &&
      (cloud != r.cloud ==> GroupIndex(g, cloud) == i && (i.Some? ==> g[i.value] == gs[i.value]))
  {
    var g := AddResult(gs, r);
    var i := GroupIndex(gs, cloud);
    if cloud == r.cloud && i.None? {
      GroupIndexAt(g, |gs|, cloud);
    } else if i.Some? {
      GroupIndexAt(g, i.value, cloud);
    } else {
      assert forall j :: 0 <= j < |g| ==> g[j].cloud != cloud;
      GroupIndexAbsent(g, cloud);
    }
  }

  /** The first group of `cloud` is the one `GroupIndex` finds. */
  lemma GroupIndexAt(gs: seq<Group>, i: nat, cloud: string)
    requires i < |gs| && gs[i].cloud == cloud
    requires forall j :: 0 <= j < i ==> gs[j].cloud != cloud
    ensures GroupIndex(gs, cloud) == Some(i)
  {
    FirstKeyedAt(gs, CloudOf, i, cloud);
  }

  lemma GroupIndexAbsent(gs: seq<Group>, cloud: string)
    requires forall j :: 0 <= j < |gs| ==> gs[j].cloud != cloud
    ensures GroupIndex(gs, cloud).None?
  {
  }

  /** The group sizes in total. */
  function GroupedCount(gs: seq<Group>): nat {
    if |gs| == 0 then 0 else GroupedCount(gs[..|gs| - 1]) + |gs[|gs| - 1].results|
  }

  /** Grouping neither loses nor duplicates a result: the groups hold as many results as there are. */
  lemma {:induction false} GroupByCloudCount(rs: seq<InsertResult>)
    ensures GroupedCount(GroupByCloud(rs)) == |rs|
    decreases |rs|
  {
    if |rs| > 0 {
      var init, r := rs[..|rs| - 1], rs[|rs| - 1];
      var gs := GroupByCloud(init);
      GroupByCloudCount(init);
      match GroupIndex(gs, r.cloud)
        case None =>
          var g := gs + [Group(r.cloud, [r])];
          assert g[..|g| - 1] == gs;
        case Some(i) =>
          GroupedCountUpdate(gs, i, Group(r.cloud, gs[i].results + [r]));
    }
  }

  /** Replacing one group shifts the total by the difference in size. */
  lemma {:induction false} GroupedCountUpdate(gs: seq<Group>, i: nat, e: Group)
    requires i < |gs|
    ensures GroupedCount(gs[i := e]) + |gs[i].results| == GroupedCount(gs) + |e.results|
    decreases |gs|
  {
    var g := gs[i := e];
    if i < |gs| - 1 {
      assert g[..|g| - 1] == gs[..|gs| - 1][i := e];
      GroupedCountUpdate(gs[..|gs| - 1], i, e);
    } else {
      assert g[..|g| - 1] == gs[..|gs| - 1];
    }
  }

  /** One cloud's entry of `get_performance_summary()`, without the timings. */
  datatype CloudSummary = CloudSummary(
    totalOperations: nat, successfulOperations: nat, failedOperations: int, totalRecordsInserted: nat)

  /** `[r for r in cloud_results if r.success]`. */
  function Successful(rs: seq<InsertResult>): (r: seq<InsertResult>)
    ensures forall x :: x in r <==> x in rs && x.success
    decreases |rs|
  {
    if |rs| == 0 then []
    else Successful(rs[..|rs| - 1]) + (if rs[|rs| - 1].success then [rs[|rs| - 1]] else [])
  }

  /** Python's `sum(r.records_count for r in rs)`. */
  function RecordsOf(rs: seq<InsertResult>): nat
    decreases |rs|
  {
    if |rs| == 0 then 0 else RecordsOf(rs[..|rs| - 1]) + rs[|rs| - 1].recordsCount
  }

  /** The summary of one cloud's results: with successes, and the zero entry without. */
  function Summarize(rs: seq<InsertResult>): CloudSummary {
    var ok := Successful(rs);
    if |ok| > 0 then CloudSummary(|rs|, |ok|, |rs| - |ok|, RecordsOf(ok))
    else CloudSummary(|rs|, 0, |rs|, 0)
  }

  /**
   * A cloud's counts: its successful and failed operations add up to its
   * operations, the failed ones are its failures, and the records inserted
   * are those of its successful operations; without a success these are all 0.
   */
  lemma SummarizeSpec(rs: seq<InsertResult>)
    ensures var s := Summarize(rs);
      s.totalOperations == |rs| &&
      s.successfulOperations == Successes(rs) &&
      s.failedOperations == Failures(rs) &&
      s.successfulOperations + s.failedOperations == s.totalOperations &&
      s.totalRecordsInserted == RecordsOf(Successful(rs)) &&
      (Successes(rs) == 0 ==> s.successfulOperations == 0 && s.totalRecordsInserted == 0)
  {
    SuccessfulCount(rs);
    SuccessesAndFailures(rs);
  }

  lemma {:induction false} SuccessfulCount(rs: seq<InsertResult>)
    ensures |Successful(rs)| == Successes(rs)
    decreases |rs|
  {
    if |rs| > 0 {
      SuccessfulCount(rs[..|rs| - 1]);
    }
  }

  /** One summary per group, in the groups' order. */
  function Summaries(gs: seq<Group>): (r: seq<(string, CloudSummary)>)
    ensures |r| == |gs|
  {
    seq(|gs|, i requires 0 <= i < |gs| => (gs[i].cloud, Summarize(gs[i].results)))
  }

  /**
   * The summary has one entry per cloud that has results, in order of first
   * appearance, and each counts exactly that cloud's results.
   */
  lemma SummariesSpec(rs: seq<InsertResult>, cloud: string)
    ensures var gs := GroupByCloud(rs);
      var i := GroupIndex(gs, cloud);
      (i.None? <==> ResultsFor(rs, cloud) == []) &&
      (i.Some? ==> Summaries(gs)[i.value] == (cloud, Summarize(ResultsFor(rs, cloud))))
  {
    GroupByCloudSpec(rs, cloud);
  }

  // ---------------------------------------------------------------------------
  // The processor

  class DataProcessor {
    const backend: Backend
    /** The clouds `DatabaseManager` has connections for, in configuration order. */
    const configured: seq<string>
    const chunkSize: int
    /** `self.results`. */
    var results: seq<InsertResult>

    constructor (backend: Backend, connections: seq<Connection>, chunkSize: int)
      ensures this.backend == backend && this.chunkSize == chunkSize
      ensures |configured| == |connections| && forall i :: 0 <= i < |connections| ==> configured[i] == connections[i].cloud
      ensures results == []
    {
      this.backend := backend;
      this.configured := seq(|connections|, i requires 0 <= i < |connections| => connections[i].cloud);
      this.chunkSize := chunkSize;
      results := [];
    }

    /** `process_single_cloud(cloud, data)`: the early failures, then one insert per chunk. */
    method ProcessSingleCloud(cloud: string, data: seq<Value>) returns (r: Result<seq<InsertResult>, ()>)
      ensures r == CloudResults(backend, chunkSize, cloud, data)
    {
      if !backend.connects(cloud) {
        return Ok([ConnectFailure(cloud)]);
      }
      if !backend.createsTable(cloud) {
        return Ok([TableFailure(cloud)]);
      }
      var chunks := ChunkData(data, chunkSize);
      if chunks.Err? {
        return Err(());
      }
      var cs := chunks.value;
      var cloudResults: seq<InsertResult> := [];
      var chunkId := 0;
      while chunkId < |cs|
        invariant chunkId <= |cs|
        invariant |cloudResults| == chunkId
        invariant forall k :: 0 <= k < chunkId ==> cloudResults[k] == backend.insert(cloud, k + 1, cs[k])
        decreases |cs| - chunkId
      {
        var chunk := cs[chunkId];
        chunkId := chunkId + 1;
        var result := backend.insert(cloud, chunkId, chunk);
        cloudResults := cloudResults + [result];
      }
      assert cloudResults == ChunkResults(backend, cloud, cs);
      r := Ok(cloudResults);
    }

    /**
     * `process_all_clouds(data, clouds)`: `clouds` defaults to the configured
     * ones; the statistics, and `results` as `ProcessAll` leaves them.
     */
    method ProcessAllClouds(data: seq<Value>, clouds: Option<seq<string>>) returns (r: Result<ProcessingStats, ()>)
      modifies this
      ensures var cl := if clouds.None? then configured else clouds.value;
        (r, results) == ProcessAll(backend, chunkSize, cl, data)
    {
      var cl := if clouds.None? then configured else clouds.value;
      results := [];
      var lists := GatherClouds(cl, data);
      if lists.Err? {
        ProcessAllGatherFails(backend, chunkSize, cl, data);
        return Err(());
      }
      ExtendResults(lists.value);
      assert results == Flatten(lists.value);
      var chunks := ChunkData(data, chunkSize);
      if chunks.Err? {
        ProcessAllChunksFail(backend, chunkSize, cl, data, lists.value);
        return Err(());
      }
      var ok := CountSuccesses(results);
      ProcessAllSucceeds(backend, chunkSize, cl, data, lists.value, chunks.value);
      r := Ok(ProcessingStats(|data|, |chunks.value| * |cl|, chunkSize, ok, |results| - ok, cl));
    }

    /** The tasks of `process_all_clouds`, awaited by `asyncio.gather` in cloud order. */
    method GatherClouds(cl: seq<string>, data: seq<Value>) returns (r: Result<seq<seq<InsertResult>>, ()>)
      ensures r == Gathered(backend, chunkSize, cl, data)
    {
      var f := c => CloudResults(backend, chunkSize, c, data);
      var lists: seq<seq<InsertResult>> := [];
      var i := 0;
      while i < |cl|
        invariant i <= |cl|
        invariant Traverse(cl[..i], f) == Ok(lists)
        decreases |cl| - i
      {
        TraverseStep(cl, f, i);
        var one := ProcessSingleCloud(cl[i], data);
        if one.Err? {
          TraverseFirstError(cl, f, i);
          return Err(());
        }
        lists := lists + [one.value];
        i := i + 1;
      }
      assert cl[..i] == cl;
      r := Ok(lists);
    }

    /** `for cloud_results in cloud_results_list: self.results.extend(cloud_results)`. */
    method ExtendResults(lists: seq<seq<InsertResult>>)
      modifies this
      ensures results == old(results) + Flatten(lists)
    {
      var i := 0;
      while i < |lists|
        invariant i <= |lists|
        invariant results == old(results) + Flatten(lists[..i])
        decreases |lists| - i
      {
        FlattenAppend(lists[..i], lists[i]);
        assert lists[..i + 1] == lists[..i] + [lists[i]];
        ConcatAssoc(old(results), Flatten(lists[..i]), lists[i]);
        results := results + lists[i];
        i := i + 1;
      }
      assert lists[..i] == lists;
    }

    /** `sum(1 for r in self.results if r.success)`. */
    static method CountSuccesses(rs: seq<InsertResult>) returns (n: nat)
      ensures n == Successes(rs)
    {
      n := 0;
      var i := 0;
      while i < |rs|
        invariant i <= |rs|
        invariant n == Successes(rs[..i])
        decreases |rs| - i
      {
        assert rs[..i + 1][..i] == rs[..i];
        if rs[i].success {
          n := n + 1;
        }
        i := i + 1;
      }
      assert rs[..i] == rs;
    }

    /** `get_results_by_cloud()`: the loop filing each result under its cloud. */
    method GetResultsByCloud() returns (gs: seq<Group>)
      ensures gs == GroupByCloud(results)
    {
      gs := [];
      var i := 0;
      while i < |results|
        invariant i <= |results|
        invariant gs == GroupByCloud(results[..i])
        decreases |results| - i
      {
        var r := results[i];
        var idx := GroupIndex(gs, r.cloud);
        if idx.None? {
          gs := gs + [Group(r.cloud, [r])];
        } else {
          gs := gs[idx.value := Group(r.cloud, gs[idx.value].results + [r])];
        }
        assert results[..i + 1][..i] == results[..i];
        i := i + 1;
      }
      assert results[..i] == results;
    }

    /** `get_performance_summary()`: one entry per cloud group, in order. */
    method GetPerformanceSummary() returns (summary: seq<(string, CloudSummary)>)
      ensures summary == Summaries(GroupByCloud(results))
    {
      var gs := GetResultsByCloud();
      summary := [];
      var i := 0;
      while i < |gs|
        invariant i <= |gs|
        invariant |summary| == i
        invariant forall k :: 0 <= k < i ==> summary[k] == (gs[k].cloud, Summarize(gs[k].results))
        decreases |gs| - i
      {
        summary := summary + [(gs[i].cloud, Summarize(gs[i].results))];
        i := i + 1;
      }
    }
  }
}
