/**
 * The dashboard's loader (`StreamlitDataMigrator` of
 * services/migration/migrator.py): the batch loader of `BidLoader` with
 * quoted columns and timestamps, blank strings stored as NULL, a batch size
 * fixed when the migrator is made, the batch stats kept in memory, and the
 * summary of those stats grouped by table.
 */
module DashboardMigration {
  import opened Common
  import opened Json
  import opened BidLoader
  import opened FileRuns

  /** The batch size a migrator is made with when none is given. */
  const DefaultBatchSize: int := 1000

  /** The batch size `insert_batch` uses: the one passed, else the migrator's own. */
  function EffectiveBatchSize(given: Option<int>, own: int): (b: int)
    ensures given.Some? ==> b == given.value
    ensures given.None? ==> b == own
  {
    if given.Some? then given.value else own
  }

  // ------------------------------------------------------ performance summary

  /** One entry of `table_statistics`, without its duration and rate. */
  datatype TableStat = TableStat(table: string, batches: nat, records: nat)

  /** What `get_performance_summary` returns for a non-empty stats list, without its durations and rates. */
  datatype PerformanceSummary = PerformanceSummary(totalBatches: nat, totalRecords: nat, tableStatistics: seq<TableStat>)

  function TableOf(t: TableStat): string { t.table }

  /** The position of `table`'s entry in `ts`, if it has one. */
  function TableIndex(ts: seq<TableStat>, table: string): (r: Option<nat>)
    ensures r.Some? ==> r.value < |ts| && ts[r.value].table == table
    ensures r.None? ==> forall i :: 0 <= i < |ts| ==> ts[i].table != table
  {
    FirstKeyed(ts, TableOf, table)
  }

  /** One stat counted into the table entries: its table's entry grows, or a new entry goes last. */
  function AddStat(ts: seq<TableStat>, s: BatchStat): seq<TableStat> {
    match TableIndex(ts, s.tableName)
      case None => ts + [TableStat(s.tableName, 1, s.recordsCount)]
      case Some(i) => ts[i := TableStat(s.tableName, ts[i].batches + 1, ts[i].records + s.recordsCount)]
  }

  /** `table_stats` after the loop over `stats`: one entry per table, in order of first appearance. */
  function TableStats(stats: seq<BatchStat>): seq<TableStat>
    decreases |stats|
  {
    if |stats| == 0 then [] else AddStat(TableStats(stats[..|stats| - 1]), stats[|stats| - 1])
  }

  /** `get_performance_summary()`: `{}` (`None`) without stats. */
  function SummaryOf(stats: seq<BatchStat>): Option<PerformanceSummary> {
    if |stats| == 0 then None else Some(PerformanceSummary(|stats|, StatSum(stats), TableStats(stats)))
  }

  /** The stats of one table. */
  function StatsFor(stats: seq<BatchStat>, table: string): (r: seq<BatchStat>)
    ensures forall s :: s in r <==> s in stats && s.tableName == table
    decreases |stats|
  {
    if |stats| == 0 then []
    else StatsFor(stats[..|stats| - 1], table) + (if stats[|stats| - 1].tableName == table then [stats[|stats| - 1]] else [])
  }

  function SumBatches(ts: seq<TableStat>): nat {
    if |ts| == 0 then 0 else SumBatches(ts[..|ts| - 1]) + ts[|ts| - 1].batches
  }

  function SumRecords(ts: seq<TableStat>): nat {
    if |ts| == 0 then 0 else SumRecords(ts[..|ts| - 1]) + ts[|ts| - 1].records
  }

  predicate DistinctTables(ts: seq<TableStat>) {
    forall i, j :: 0 <= i < j < |ts| ==> ts[i].table != ts[j].table
  }

  /**
   * Each table's entry counts exactly that table's stats: its batches and the
   * sum of their records; a table has an entry exactly when it has a stat,
   * and no table has two.
   */
  lemma {:induction false} TableStatsSpec(stats: seq<BatchStat>, table: string)
    ensures DistinctTables(TableStats(stats))
    ensures TableIndex(TableStats(stats), table).None? <==> StatsFor(stats, table) == []
    ensures TableIndex(TableStats(stats), table).Some? ==>
      var e := TableStats(stats)[TableIndex(TableStats(stats), table).value];
      e.batches == |StatsFor(stats, table)| && e.records == StatSum(StatsFor(stats, table))
    decreases |stats|
  {
    if |stats| > 0 {
      var init, s := stats[..|stats| - 1], stats[|stats| - 1];
      TableStatsSpec(init, table);
      assert TableStats(stats) == AddStat(TableStats(init), s);
      assert StatsFor(stats, table) == StatsFor(init, table) + (if s.tableName == table then [s] else []);
      TableStatsStep(TableStats(init), StatsFor(init, table), s, table);
    }
  }

  /** One stat counted in keeps the entry of `table` in step with `table`'s stats. */
  lemma TableStatsStep(ts: seq<TableStat>, g: seq<BatchStat>, s: BatchStat, table: string)
    requires DistinctTables(ts)
    requires TableIndex(ts, table).None? <==> g == []
    requires TableIndex(ts, table).Some? ==>
      ts[TableIndex(ts, table).value].batches == |g| && ts[TableIndex(ts, table).value].records == StatSum(g)
    ensures var r, g' := AddStat(ts, s), g + (if s.tableName == table then [s] else []);
      DistinctTables(r) &&
      (TableIndex(r, table).None? <==> g' == []) &&
      (TableIndex(r, table).Some? ==>
        r[TableIndex(r, table).value].batches == |g'| && r[TableIndex(r, table).value].records == StatSum(g'))
  {
    AddStatDistinct(ts, s);
    AddStatIndex(ts, s, table);
    if s.tableName == table {
      StatSumAppend(g, s);
    } else {
      assert g + [] == g;
    }
  }

  lemma StatSumAppend(g: seq<BatchStat>, s: BatchStat)
    ensures StatSum(g + [s]) == StatSum(g) + s.recordsCount
  {
    assert (g + [s])[..|g + [s]| - 1] == g;
  }

  lemma AddStatDistinct(ts: seq<TableStat>, s: BatchStat)
    requires DistinctTables(ts)
    ensures DistinctTables(AddStat(ts, s))
  {
  }

  /** Where `table`'s entry is after a stat is counted in. */
  lemma AddStatIndex(ts: seq<TableStat>, s: BatchStat, table: string)
    requires DistinctTables(ts)
    ensures var r := AddStat(ts, s);
      var i := TableIndex(ts, table);
      (table == s.tableName && i.None? ==>
        TableIndex(r, table) == Some(|ts|) && r[|ts|] == TableStat(table, 1, s.recordsCount)) &&
      (table == s.tableName && i.Some? ==>
        TableIndex(r, table) == i &&
        r[i.value] == TableStat(table, ts[i.value].batches + 1, ts[i.value].records + s.recordsCount)) &&
      (table != s.tableName ==> TableIndex(r, table) == i && (i.Some? ==> r[i.value] == ts[i.value]))
  {
    if table != s.tableName {
      AddStatIndexOther(ts, s, table);
    } else if TableIndex(ts, table).None? {
      AddStatIndexNew(ts, s);
    } else {
      AddStatIndexHit(ts, s, TableIndex(ts, table).value);
    }
  }

  lemma AddStatIndexNew(ts: seq<TableStat>, s: BatchStat)
    requires TableIndex(ts, s.tableName).None?
    ensures var r := AddStat(ts, s);
      TableIndex(r, s.tableName) == Some(|ts|) && r[|ts|] == TableStat(s.tableName, 1, s.recordsCount)
  {
    var r := ts + [TableStat(s.tableName, 1, s.recordsCount)];
    assert AddStat(ts, s) == r;
    TableIndexAt(r, |ts|, s.tableName);
  }

  lemma AddStatIndexHit(ts: seq<TableStat>, s: BatchStat, i: nat)
    requires DistinctTables(ts) && TableIndex(ts, s.tableName) == Some(i)
    ensures var r := AddStat(ts, s);
      TableIndex(r, s.tableName) == Some(i) &&
      r[i] == TableStat(s.tableName, ts[i].batches + 1, ts[i].records + s.recordsCount)
  {
    var r := ts[i := TableStat(s.tableName, ts[i].batches + 1, ts[i].records + s.recordsCount)];
    assert AddStat(ts, s) == r;
    assert forall j :: 0 <= j < i ==> r[j] == ts[j];
    TableIndexAt(r, i, s.tableName);
  }

  lemma AddStatIndexOther(ts: seq<TableStat>, s: BatchStat, table: string)
    requires DistinctTables(ts) && table != s.tableName
    ensures var r, i := AddStat(ts, s), TableIndex(ts, table);
      TableIndex(r, table) == i && (i.Some? ==> r[i.value] == ts[i.value])
  {
    var r := AddStat(ts, s);
    assert |ts| <= |r| && forall j :: 0 <= j < |ts| ==> r[j].table == ts[j].table;
    assert forall j :: |ts| <= j < |r| ==> r[j].table == s.tableName;
    match TableIndex(ts, table)
    case None =>
      TableIndexAbsent(r, table);
    case Some(i) =>
      assert r[i] == ts[i];
      TableIndexAt(r, i, table);
  }

  /** The first entry with `table` is the one `TableIndex` finds. */
  lemma TableIndexAt(ts: seq<TableStat>, i: nat, table: string)
    requires i < |ts| && ts[i].table == table
    requires forall j :: 0 <= j < i ==> ts[j].table != table
    ensures TableIndex(ts, table) == Some(i)
  {
    FirstKeyedAt(ts, TableOf, i, table);
  }

  lemma TableIndexAbsent(ts: seq<TableStat>, table: string)
    requires forall j :: 0 <= j < |ts| ==> ts[j].table != table
    ensures TableIndex(ts, table).None?
  {
  }

  /** Counting a stat in adds one batch and its records to the totals. */
  lemma AddStatSums(ts: seq<TableStat>, s: BatchStat)
    ensures SumBatches(AddStat(ts, s)) == SumBatches(ts) + 1
    ensures SumRecords(AddStat(ts, s)) == SumRecords(ts) + s.recordsCount
  {
    match TableIndex(ts, s.tableName)
      case None =>
        var r := ts + [TableStat(s.tableName, 1, s.recordsCount)];
        assert r[..|r| - 1] == ts;
      case Some(i) =>
        var e := TableStat(s.tableName, ts[i].batches + 1, ts[i].records + s.recordsCount);
        SumsUpdate(ts, i, e);
  }

  /** Replacing one entry shifts both totals by the difference. */
  lemma {:induction false} SumsUpdate(ts: seq<TableStat>, i: nat, e: TableStat)
    requires i < |ts|
    ensures SumBatches(ts[i := e]) + ts[i].batches == SumBatches(ts) + e.batches
    ensures SumRecords(ts[i := e]) + ts[i].records == SumRecords(ts) + e.records
    decreases |ts|
  {
    var r := ts[i := e];
    if i < |ts| - 1 {
      assert r[..|r| - 1] == ts[..|ts| - 1][i := e];
      SumsUpdate(ts[..|ts| - 1], i, e);
    } else {
      assert r[..|r| - 1] == ts[..|ts| - 1];
    }
  }

  /**
   * The per-table batch counts add up to `total_batches` and the per-table
   * record sums to `total_records`.
   */
  lemma {:induction false} TableStatsTotals(stats: seq<BatchStat>)
    ensures SumBatches(TableStats(stats)) == |stats|
    ensures SumRecords(TableStats(stats)) == StatSum(stats)
    decreases |stats|
  {
    if |stats| > 0 {
      TableStatsTotals(stats[..|stats| - 1]);
      AddStatSums(TableStats(stats[..|stats| - 1]), stats[|stats| - 1]);
    }
  }

  /**
   * The summary: none without stats; otherwise `total_batches` is the number
   * of stats, `total_records` their records, and the table entries split both
   * totals among the tables.
   */
  lemma SummaryOfSpec(stats: seq<BatchStat>)
    ensures SummaryOf(stats).None? <==> |stats| == 0
    ensures SummaryOf(stats).Some? ==>
      var s := SummaryOf(stats).value;
      s.totalBatches == |stats| && s.totalRecords == StatSum(stats) &&
      SumBatches(s.tableStatistics) == s.totalBatches && SumRecords(s.tableStatistics) == s.totalRecords &&
      DistinctTables(s.tableStatistics)
  {
    TableStatsTotals(stats);
    if |stats| > 0 {
      TableStatsSpec(stats, "");
    }
  }

  // ---------------------------------------------------------------- migrator

  class DashboardMigrator {
    /** The columns `information_schema` lists for each table; none when the connection failed. */
    const schema: map<string, seq<string>>
    /** The database's verdict on the `executemany` and `commit` of one batch. */
    const accepts: Commit -> bool
    const batchSize: int
    /** Stored and never read again. */
    const numConnections: int
    /** The batches committed so far, in order. */
    var db: seq<Commit>
    /** `batch_performance_stats`. */
    var batchStats: seq<BatchStat>

    constructor (schema: map<string, seq<string>>, accepts: Commit -> bool, batchSize: int, numConnections: int)
      ensures this.schema == schema && this.accepts == accepts
      ensures this.batchSize == batchSize && this.numConnections == numConnections
      ensures db == [] && batchStats == []
    {
      this.schema := schema;
      this.accepts := accepts;
      this.batchSize := batchSize;
      this.numConnections := numConnections;
      db := [];
      batchStats := [];
    }

    /**
     * `insert_batch(table, records, batch_size)`: the run `Load` describes,
     * with the migrator's batch size when none is given; the database gets its
     * commits and `batch_performance_stats` its stats, also when it raised.
     */
    method InsertBatch(table: string, records: seq<Value>, batchSize: Option<int>) returns (run: Run)
      modifies this
      ensures run == Load(Dashboard, table, TableColumns(schema, table), records,
                          EffectiveBatchSize(batchSize, this.batchSize), accepts, true)
      ensures db == old(db) + run.commits && batchStats == old(batchStats) + run.stats
    {
      if |records| == 0 {
        return NoRun;
      }
      var b := if batchSize.None? then this.batchSize else batchSize.value;
      var cols := TableColumns(schema, table);
      run := RunBatches(Dashboard, table, cols, records, b, accepts);
      db := db + run.commits;
      batchStats := batchStats + run.stats;
    }

    /** `process_file(f)`: the result `LoadFile` describes, with the migrator's batch size. */
    method ProcessFile(f: DataFile) returns (result: FileResult)
      modifies this
      ensures var fl := LoadFile(Dashboard, schema, accepts, batchSize, f);
        result == fl.result && db == old(db) + fl.run.commits && batchStats == old(batchStats) + fl.run.stats
    {
      var table := TableForFilename(f.name);
      if table.None? {
        return FileResult(f.name, None, Skipped);
      }
      var t := table.value;
      if f.content.None? {
        return FileResult(f.name, Some(t), Failed(ReadFailed));
      }
      if !f.content.value.List? {
        return FileResult(f.name, None, InvalidFormat);
      }
      var items := f.content.value.items;
      var run := InsertBatch(t, items, None);
      if run.failure.Some? {
        return FileResult(f.name, Some(t), Failed(LoadFailed(run.failure.value)));
      }
      result := FileResult(f.name, Some(t), Succeeded(|items|, run.total));
    }

    /** `get_performance_summary()`: the stats grouped by table in one pass. */
    method GetPerformanceSummary() returns (r: Option<PerformanceSummary>)
      ensures r == SummaryOf(batchStats)
    {
      if |batchStats| == 0 {
        return None;
      }
      var tables: seq<TableStat> := [];
      var i := 0;
      while i < |batchStats|
        invariant 0 <= i <= |batchStats|
        invariant tables == TableStats(batchStats[..i])
      {
        var s := batchStats[i];
        var idx := TableIndex(tables, s.tableName);
        if idx.None? {
          tables := tables + [TableStat(s.tableName, 1, s.recordsCount)];
        } else {
          var e := tables[idx.value];
          tables := tables[idx.value := TableStat(s.tableName, e.batches + 1, e.records + s.recordsCount)];
        }
        assert batchStats[..i + 1][..i] == batchStats[..i];
        i := i + 1;
      }
      assert batchStats[..i] == batchStats;
      r := Some(PerformanceSummary(|batchStats|, StatSum(batchStats), tables));
    }
  }
}
