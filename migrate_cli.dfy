/**
 * The command-line loader (`CLIDataMigrator` and `main` of migrate_cli.py):
 * the batch loader of `BidLoader` run with quoted columns and timestamps,
 * with every committed batch also reported to a `StatsWriter`: its stat
 * appended to the stats document and `current_batch` and
 * `total_records_processed` set in the progress document.
 */
module CliMigration {
  import opened Common
  import opened Json
  import opened Batching
  import opened BidLoader
  import opened StatsWriting
  import opened FileRuns

  /** `insert_batch`'s default batch size, the one `process_file` uses. */
  const DefaultBatchSize: int := 1000

  /** The batch stat as `add_batch_stat` receives it, without its clock readings and rate. */
  function StatDoc(s: BatchStat): Value {
    Obj([Entry("batch_number", Int(s.batchNumber)), Entry("table_name", Str(s.tableName)),
         Entry("records_count", Int(s.recordsCount)), Entry("cumulative_records", Int(s.cumulativeRecords))])
  }

  function StatDocs(xs: seq<BatchStat>): (r: seq<Value>)
    ensures |r| == |xs|
    decreases |xs|
  {
    if |xs| == 0 then [] else StatDocs(xs[..|xs| - 1]) + [StatDoc(xs[|xs| - 1])]
  }

  /** Whether `add_batch_stat` can append to this stats document: its `batches` is missing or a list. */
  predicate Appendable(stats: Dict) {
    !HasKey(stats, "batches") || Get(stats, "batches").value.List?
  }

  /** The stats document after `add_batch_stat(v)`; a failing append writes nothing. */
  function Appended(d: Dict, v: Value): Dict {
    match BatchAppended(d, v)
      case Some(r) => r
      case None => d
  }

  /** The stats document after `add_batch_stat` of each stat in turn. */
  function AppendStats(d: Dict, xs: seq<BatchStat>): Dict
    decreases |xs|
  {
    if |xs| == 0 then d else Appended(AppendStats(d, xs[..|xs| - 1]), StatDoc(xs[|xs| - 1]))
  }

  /** An append to a document that can take it leaves a list under `batches`, one longer. */
  lemma AppendedSpec(d: Dict, v: Value, k: string)
    requires Appendable(d)
    ensures BatchAppended(d, v).Some?
    ensures Appendable(Appended(d, v))
    ensures BatchList(Appended(d, v)) == BatchList(d) + [v]
    ensures k != "batches" ==> Get(Appended(d, v), k) == Get(d, k)
    ensures DistinctKeys(d) ==> DistinctKeys(Appended(d, v))
  {
    BatchAppendedSpec(d, v, k);
    match Get(d, "batches")
      case None => GetSet(d, "batches", List([v]), "batches");
      case Some(List(items)) => GetSet(d, "batches", List(items + [v]), "batches");
  }

  /**
   * Appending stats one after another to a document that can take them puts
   * them, in order, after the batches it had, and touches no other key.
   */
  lemma {:induction false} AppendStatsSpec(d: Dict, xs: seq<BatchStat>, k: string)
    requires Appendable(d)
    ensures Appendable(AppendStats(d, xs))
    ensures BatchList(AppendStats(d, xs)) == BatchList(d) + StatDocs(xs)
    ensures k != "batches" ==> Get(AppendStats(d, xs), k) == Get(d, k)
    ensures DistinctKeys(d) ==> DistinctKeys(AppendStats(d, xs))
    decreases |xs|
  {
    if |xs| == 0 {
      assert BatchList(d) + StatDocs(xs) == BatchList(d);
    } else {
      var ys := xs[..|xs| - 1];
      var v := StatDoc(xs[|xs| - 1]);
      AppendStatsSpec(d, ys, k);
      AppendedSpec(AppendStats(d, ys), v, k);
      assert StatDocs(xs) == StatDocs(ys) + [v];
      ConcatAssoc(BatchList(d), StatDocs(ys), [v]);
    }
  }

  /** The keys `update_progress` gets after a batch. */
  function BatchProgress(s: BatchStat): Dict {
    [Entry("current_batch", Int(s.batchNumber)), Entry("total_records_processed", Int(s.cumulativeRecords))]
  }

  /** The progress document after the `update_progress` of each batch in turn. */
  function ProgressAfter(p: Dict, xs: seq<BatchStat>, now: string): Dict
    decreases |xs|
  {
    if |xs| == 0 then p
    else ProgressUpdated(ProgressAfter(p, xs[..|xs| - 1], now), BatchProgress(xs[|xs| - 1]), now)
  }

  lemma BatchProgressGet(s: BatchStat, k: string)
    ensures DistinctKeys(BatchProgress(s))
    ensures HasKey(BatchProgress(s), k) <==> k == "current_batch" || k == "total_records_processed"
    ensures k == "current_batch" ==> Get(BatchProgress(s), k) == Some(Int(s.batchNumber))
    ensures k == "total_records_processed" ==> Get(BatchProgress(s), k) == Some(Int(s.cumulativeRecords))
  {
    var d := BatchProgress(s);
    GetFirst(d, k);
    GetFirst(d[1..], k);
    assert d[1..][1..] == [];
  }

  /**
   * After one or more batches the progress shows the last batch's number and
   * cumulative count and the time of the update; every other key reads as before.
   */
  lemma {:induction false} ProgressAfterSpec(p: Dict, xs: seq<BatchStat>, now: string, k: string)
    requires |xs| > 0
    ensures Get(ProgressAfter(p, xs, now), k) ==
      if k == "current_batch" then Some(Int(xs[|xs| - 1].batchNumber))
      else if k == "total_records_processed" then Some(Int(xs[|xs| - 1].cumulativeRecords))
      else if k == "last_update" then Some(Str(now))
      else Get(p, k)
    decreases |xs|
  {
    var ys := xs[..|xs| - 1];
    BatchProgressGet(xs[|xs| - 1], k);
    ProgressUpdatedSpec(ProgressAfter(p, ys, now), BatchProgress(xs[|xs| - 1]), now, k);
    if |ys| > 0 {
      ProgressAfterSpec(p, ys, now, k);
    }
  }

  /** The stats that reach the writer: all of the run's, unless its first append failed. */
  function WrittenStats(r: Run): seq<BatchStat> {
    if r.failure.Some? && r.failure.value.StatsNotAppendable? then [] else r.stats
  }

  /** The stats document once the run's stats are written. */
  function StatsDocAfter(stats: Option<Dict>, r: Run): Option<Dict> {
    if |WrittenStats(r)| == 0 then stats else Some(AppendStats(ReadDoc(stats), WrittenStats(r)))
  }

  /** The progress document once the run's batches are reported. */
  function ProgressDocAfter(progress: Option<Dict>, r: Run, now: string): Option<Dict> {
    if |WrittenStats(r)| == 0 then progress else Some(ProgressAfter(ReadDoc(progress), WrittenStats(r), now))
  }

  /** A stopped pass leaves the documents as the passes before it left them. */
  lemma DocsAfterStop(stats0: Option<Dict>, progress0: Option<Dict>, run: Run, f: LoadError, now: string)
    requires run.failure.None? && (f.StatsNotAppendable? ==> run.stats == [])
    ensures StatsDocAfter(stats0, run.(failure := Some(f))) == StatsDocAfter(stats0, run)
    ensures ProgressDocAfter(progress0, run.(failure := Some(f)), now) == ProgressDocAfter(progress0, run, now)
  {
  }

  /** A pass that wrote `stat` adds it to both documents. */
  lemma DocsAfterStat(stats0: Option<Dict>, progress0: Option<Dict>, run: Run, next: Run, stat: BatchStat, now: string,
                      stats: Option<Dict>, progress: Option<Dict>)
    requires run.failure.None? && next.failure.None? && next.stats == run.stats + [stat]
    requires stats == Some(Appended(ReadDoc(StatsDocAfter(stats0, run)), StatDoc(stat)))
    requires progress == Some(ProgressUpdated(ReadDoc(ProgressDocAfter(progress0, run, now)), BatchProgress(stat), now))
    ensures stats == StatsDocAfter(stats0, next)
    ensures progress == ProgressDocAfter(progress0, next, now)
  {
    var d0 := ReadDoc(stats0);
    assert next.stats[..|next.stats| - 1] == run.stats;
    assert WrittenStats(next) == next.stats && |next.stats| > 0;
    assert AppendStats(d0, next.stats) == Appended(AppendStats(d0, run.stats), StatDoc(stat));
    assert ProgressAfter(ReadDoc(progress0), next.stats, now)
        == ProgressUpdated(ProgressAfter(ReadDoc(progress0), run.stats, now), BatchProgress(stat), now);
    if |run.stats| == 0 {
      assert ReadDoc(StatsDocAfter(stats0, run)) == d0 == AppendStats(d0, run.stats);
      assert ReadDoc(ProgressDocAfter(progress0, run, now)) == ProgressAfter(ReadDoc(progress0), run.stats, now);
    }
  }

  /** A refused first append leaves both documents as they were. */
  lemma DocsAfterRefused(stats0: Option<Dict>, progress0: Option<Dict>, run: Run, next: Run, now: string)
    requires run.stats == [] && next.failure.Some? && next.failure.value.StatsNotAppendable?
    ensures StatsDocAfter(stats0, next) == StatsDocAfter(stats0, run) == stats0
    ensures ProgressDocAfter(progress0, next, now) == ProgressDocAfter(progress0, run, now) == progress0
  {
  }

  /**
   * The runs a command-line load can end with, as the writer sees them: a
   * writer that cannot append gets no stat, one that can gets every stat;
   * the last stat is numbered by its position and carries the run's total;
   * a load that finishes inserted every record, unless there was nothing
   * to insert or no column to insert into.
   */
  predicate ReportableRun(r: Run, stats: Option<Dict>) {
    (!Appendable(ReadDoc(stats)) ==> WrittenStats(r) == []) &&
    (Appendable(ReadDoc(stats)) ==> WrittenStats(r) == r.stats) &&
    (|r.stats| > 0 ==>
      r.stats[|r.stats| - 1].batchNumber == |r.stats| && r.stats[|r.stats| - 1].cumulativeRecords == r.total)
  }

  lemma CliLoadFacts(table: string, cols: seq<string>, records: seq<Value>, b: int, accepts: Commit -> bool,
                     stats: Option<Dict>)
    ensures var r := Load(Cli, table, cols, records, b, accepts, Appendable(ReadDoc(stats)));
      ReportableRun(r, stats) &&
      (r.failure.None? ==> r.total == if |records| == 0 || |cols| == 0 || b < 0 then 0 else |records|)
  {
    var ap := Appendable(ReadDoc(stats));
    var r := Load(Cli, table, cols, records, b, accepts, ap);
    CliLoadReportable(table, cols, records, b, accepts, stats);
    LoadSpec(Cli, table, cols, records, b, accepts, ap);
    if |records| > 0 && |cols| > 0 && b > 0 && r.failure.None? {
      LoadCompleteCounts(Cli, table, cols, records, b, accepts, ap);
    }
  }

  lemma CliLoadReportable(table: string, cols: seq<string>, records: seq<Value>, b: int, accepts: Commit -> bool,
                          stats: Option<Dict>)
    ensures ReportableRun(Load(Cli, table, cols, records, b, accepts, Appendable(ReadDoc(stats))), stats)
  {
    CliLoadWritten(table, cols, records, b, accepts, Appendable(ReadDoc(stats)));
    CliLoadLastStat(table, cols, records, b, accepts, Appendable(ReadDoc(stats)));
  }

  /** A command-line load writes its stats exactly when the stats document can take them. */
  lemma CliLoadWritten(table: string, cols: seq<string>, records: seq<Value>, b: int, accepts: Commit -> bool,
                       appendable: bool)
    ensures var r := Load(Cli, table, cols, records, b, accepts, appendable);
      (!appendable ==> WrittenStats(r) == []) && (appendable ==> WrittenStats(r) == r.stats)
  {
    LoadSpec(Cli, table, cols, records, b, accepts, appendable);
    CumulativeRecords(Cli, table, cols, records, b, accepts, appendable);
  }

  /** The last stat of a command-line load numbers its batches and carries the load's total. */
  lemma CliLoadLastStat(table: string, cols: seq<string>, records: seq<Value>, b: int, accepts: Commit -> bool,
                        appendable: bool)
    ensures var r := Load(Cli, table, cols, records, b, accepts, appendable);
      |r.stats| > 0 ==>
        r.stats[|r.stats| - 1].batchNumber == |r.stats| && r.stats[|r.stats| - 1].cumulativeRecords == r.total
  {
    var r := Load(Cli, table, cols, records, b, accepts, appendable);
    LoadSpec(Cli, table, cols, records, b, accepts, appendable);
    if |r.stats| > 0 {
      var j := JobFor(Cli, table, cols, records, b);
      var n := |r.stats|;
      assert r.stats[n - 1] == PlannedStat(j, n - 1);
      assert r.stats[..n] == r.stats;
    }
  }

  /**
   * What the writer holds after a command-line load whose run is
   * reportable: the stats document has each committed batch's stat after
   * the batches it had, and the progress names the last committed batch and
   * the running total; a load that wrote no stat leaves both documents alone.
   */
  lemma WriterAfterRun(r: Run, stats: Option<Dict>, progress: Option<Dict>, now: string, k: string)
    requires ReportableRun(r, stats)
    ensures |WrittenStats(r)| == 0 ==> StatsDocAfter(stats, r) == stats && ProgressDocAfter(progress, r, now) == progress
    ensures |WrittenStats(r)| > 0 ==>
      Appendable(ReadDoc(stats)) && WrittenStats(r) == r.stats && r.failure != Some(StatsNotAppendable(1)) &&
      BatchList(StatsDocAfter(stats, r).value) == BatchList(ReadDoc(stats)) + StatDocs(r.stats) &&
      (k != "batches" ==> Get(StatsDocAfter(stats, r).value, k) == Get(ReadDoc(stats), k)) &&
      Get(ProgressDocAfter(progress, r, now).value, k) ==
        if k == "current_batch" then Some(Int(|r.stats|))
        else if k == "total_records_processed" then Some(Int(r.total))
        else if k == "last_update" then Some(Str(now))
        else Get(ReadDoc(progress), k)
  {
    if |WrittenStats(r)| > 0 {
      AppendStatsSpec(ReadDoc(stats), r.stats, k);
      ProgressAfterSpec(ReadDoc(progress), r.stats, now, k);
    }
  }

  /** The `update_progress(current_file=...)` of `process_file`. */
  function CurrentFile(name: string): Dict {
    [Entry("current_file", Str(name))]
  }

  /**
   * The dict `process_file` returns for a result, keys in the order it
   * writes them; `reason` gives `str(e)` for the exception a failed file
   * raised.
   */
  function ResultDoc(r: FileResult, reason: FileError -> string): Dict {
    var name := [Entry("filename", Str(r.filename))];
    var table := if r.table.Some? then [Entry("table", Str(r.table.value))] else [];
    match r.outcome
      case Skipped => name + [Entry("status", Str("skipped")), Entry("reason", Str("unknown file pattern"))]
      case InvalidFormat => name + [Entry("status", Str("error")), Entry("reason", Str("invalid data format"))]
      case Failed(e) => name + table + [Entry("status", Str("error")), Entry("reason", Str(reason(e)))]
      case Succeeded(processed, inserted) =>
        name + table + [Entry("status", Str("success")), Entry("records_processed", Int(processed)),
                        Entry("records_inserted", Int(inserted))]
  }

  /** The `results` list `migrate_all_files` returns, as saved under `file_results`. */
  function ResultDocs(rs: seq<FileResult>, reason: FileError -> string): seq<Value> {
    seq(|rs|, i requires 0 <= i < |rs| => Obj(ResultDoc(rs[i], reason)))
  }

  /** The results dict `main` saves, without its clock readings and table counts. */
  function FinalResultsDoc(rs: seq<FileResult>, reason: FileError -> string): Dict {
    var s := Summarize(rs);
    [Entry("status", Str(FinalStatus(rs))), Entry("total_files", Int(s.total)),
     Entry("successful", Int(s.successful)), Entry("failed", Int(s.failed)),
     Entry("total_records", Int(s.totalRecords)), Entry("file_results", List(ResultDocs(rs, reason)))]
  }

  const InterruptMessage: string := "Interrupted by user"

  /** What `process_file` does to one file: its result, the load it ran, and the two documents after it. */
  datatype FileStep = FileStep(result: FileResult, run: Run, stats: Option<Dict>, progress: Option<Dict>)

  /**
   * `process_file(f)` against a writer whose documents are `stats` and
   * `progress`: unknown names are skipped untouched; otherwise the file
   * becomes the current one, and a file that cannot be read, is not a list,
   * fails to load or cannot be counted is an error, anything else a success.
   */
  function ProcessSpec(schema: map<string, seq<string>>, accepts: Commit -> bool, f: DataFile,
                       stats: Option<Dict>, progress: Option<Dict>, now: string): FileStep
  {
    match TableForFilename(f.name)
      case None => FileStep(FileResult(f.name, None, Skipped), NoRun, stats, progress)
      case Some(t) => ProcessKnown(schema, accepts, f, t, stats, Some(ProgressUpdated(ReadDoc(progress), CurrentFile(f.name), now)), now)
  }

  /** `process_file` once the name maps to table `t` and the file is the current one. */
  function ProcessKnown(schema: map<string, seq<string>>, accepts: Commit -> bool, f: DataFile, t: string,
                        stats: Option<Dict>, p1: Option<Dict>, now: string): (st: FileStep)
    ensures st.result.filename == f.name && !st.result.outcome.Skipped?
    ensures st.result.table.None? <==> st.result.outcome.InvalidFormat?
    ensures st.result.table.Some? ==> st.result.table == Some(t)
  {
    if f.content.None? then FileStep(FileResult(f.name, Some(t), Failed(ReadFailed)), NoRun, stats, p1)
    else if !f.content.value.List? then FileStep(FileResult(f.name, None, InvalidFormat), NoRun, stats, p1)
    else
      var items := f.content.value.items;
      ProcessLoaded(f.name, t, |items|,
                    Load(Cli, t, TableColumns(schema, t), items, DefaultBatchSize, accepts, Appendable(ReadDoc(stats))),
                    stats, p1, now)
  }

  /**
   * `process_file` once `insert_batch` of the file's `count` records into `t`
   * has done `run`: the stop it raised, or `complete_file`.
   */
  function ProcessLoaded(name: string, t: string, count: nat, run: Run, stats: Option<Dict>, p1: Option<Dict>,
                         now: string): (st: FileStep)
    ensures st.result.filename == name && st.result.table == Some(t) && st.run == run
    ensures st.result.outcome.Failed? || st.result.outcome.Succeeded?
    ensures st.stats == StatsDocAfter(stats, run)
  {
    var s2, p2 := StatsDocAfter(stats, run), ProgressDocAfter(p1, run, now);
    if run.failure.Some? then FileStep(FileResult(name, Some(t), Failed(LoadFailed(run.failure.value))), run, s2, p2)
    else match FileCompleted(ReadDoc(p2), now)
      case None => FileStep(FileResult(name, Some(t), Failed(NotCountable)), run, s2, p2)
      case Some(p3) => FileStep(FileResult(name, Some(t), Succeeded(count, run.total)), run, s2, Some(p3))
  }

  /** The loop of `migrate_all_files` so far: the results, what reached the database, and the documents. */
  datatype Migration = Migration(results: seq<FileResult>, commits: seq<Commit>, stats: seq<BatchStat>,
                                 statsDoc: Option<Dict>, progressDoc: Option<Dict>)

  /** `process_file` of each file in turn, each on the documents the one before left. */
  function RunFiles(schema: map<string, seq<string>>, accepts: Commit -> bool, fs: seq<DataFile>,
                    statsDoc: Option<Dict>, progressDoc: Option<Dict>, now: string): Migration
    decreases |fs|
  {
    if |fs| == 0 then Migration([], [], [], statsDoc, progressDoc)
    else
      var m := RunFiles(schema, accepts, fs[..|fs| - 1], statsDoc, progressDoc, now);
      var st := ProcessSpec(schema, accepts, fs[|fs| - 1], m.statsDoc, m.progressDoc, now);
      Migration(m.results + [st.result], m.commits + st.run.commits, m.stats + st.run.stats, st.stats, st.progress)
  }

  lemma RunFilesStep(schema: map<string, seq<string>>, accepts: Commit -> bool, fs: seq<DataFile>, i: nat,
                     statsDoc: Option<Dict>, progressDoc: Option<Dict>, now: string)
    requires i < |fs|
    ensures var m := RunFiles(schema, accepts, fs[..i], statsDoc, progressDoc, now);
      var st := ProcessSpec(schema, accepts, fs[i], m.statsDoc, m.progressDoc, now);
      RunFiles(schema, accepts, fs[..i + 1], statsDoc, progressDoc, now)
        == Migration(m.results + [st.result], m.commits + st.run.commits, m.stats + st.run.stats, st.stats, st.progress)
  {
    assert fs[..i + 1][..i] == fs[..i];
  }

  /**
   * `migrate_all_files()` for a directory that holds `files` (none if it does
   * not exist), interrupted before the file at position `interruptAt` of the
   * sorted selection, if any, by the writer whose documents are `stats` and `progress`.
   */
  function MigrateSpec(schema: map<string, seq<string>>, accepts: Commit -> bool, dirExists: bool, files: seq<DataFile>,
                       interruptAt: Option<nat>, provider: Option<string>, instance: Option<string>,
                       stats: Option<Dict>, progress: Option<Dict>, now: string): (Result<seq<FileResult>, string>, Migration)
  {
    var sel := SelectFiles(files);
    if !dirExists then (Err(MissingDirMessage), Migration([], [], [], stats, progress))
    else if |sel| == 0 then (Ok([]), Migration([], [], [], stats, progress))
    else
      var n := Processed(|sel|, interruptAt);
      var m := RunFiles(schema, accepts, sel[..n], Some(StartStats(provider, instance)),
                        Some(StartProgress(|sel|, now, provider, instance)), now);
      var progress' := if n < |sel| then Some(MigrationFailed(ReadDoc(m.progressDoc), InterruptMessage, now)) else m.progressDoc;
      (Ok(m.results), m.(progressDoc := progress'))
  }

  class CliMigrator {
    const writer: StatsWriter
    /** The columns `information_schema` lists for each table the database has. */
    const schema: map<string, seq<string>>
    /** The database's verdict on the `executemany` and `commit` of one batch. */
    const accepts: Commit -> bool
    /** The batches committed so far, in order. */
    var db: seq<Commit>
    /** `batch_performance_stats`. */
    var batchStats: seq<BatchStat>

    /** A migrator whose writer sees the output directory's three documents as they are. */
    constructor (provider: string, instance: string, progress: Option<Dict>, stats: Option<Dict>,
                 results: Option<Dict>, schema: map<string, seq<string>>, accepts: Commit -> bool)
      ensures fresh(writer) && writer.provider == Some(provider) && writer.instance == Some(instance)
      ensures writer.progress == InitDoc(progress, DefaultProgress())
      ensures writer.stats == InitDoc(stats, DefaultStats())
      ensures writer.results == InitDoc(results, [])
      ensures this.schema == schema && this.accepts == accepts && db == [] && batchStats == []
    {
      writer := new StatsWriter(Some(provider), Some(instance), progress, stats, results);
      this.schema := schema;
      this.accepts := accepts;
      db := [];
      batchStats := [];
    }

    /**
     * `insert_batch(table, records, b)`: the run is the one `Load` describes,
     * the database gets its commits, `batch_performance_stats` its stats, and
     * the writer one stat and one progress update per committed batch.
     */
    method InsertBatch(table: string, records: seq<Value>, b: int, now: string) returns (run: Run)
      modifies this, writer
      ensures run == Load(Cli, table, TableColumns(schema, table), records, b, accepts,
                          Appendable(old(writer.ReadStats())))
      ensures db == old(db) + run.commits && batchStats == old(batchStats) + run.stats
      ensures writer.stats == StatsDocAfter(old(writer.stats), run)
      ensures writer.progress == ProgressDocAfter(old(writer.progress), run, now)
      ensures writer.results == old(writer.results)
    {
      var cols := TableColumns(schema, table);
      ghost var ap := Appendable(writer.ReadStats());
      if |records| == 0 || |cols| == 0 {
        return NoRun;
      }
      if b == 0 {
        return NoRun.(failure := Some(ZeroBatchSize));
      }
      if b < 0 {
        return NoRun;
      }
      ghost var j := JobFor(Cli, table, cols, records, b);
      assert Load(Cli, table, cols, records, b, accepts, ap) == RunFrom(j, accepts, ap, 0, NoRun);
      run := SendBatches(j, table, cols, records, b, now);
    }

    /** The loop of `insert_batch` over the batches of a load that has records, columns and a positive size. */
    method SendBatches(ghost j: Job, table: string, cols: seq<string>, records: seq<Value>, b: nat, now: string)
      returns (run: Run)
      requires b > 0 && j == JobFor(Cli, table, cols, records, b)
      modifies this, writer
      ensures run == RunFrom(j, accepts, Appendable(old(writer.ReadStats())), 0, NoRun)
      ensures db == old(db) + run.commits && batchStats == old(batchStats) + run.stats
      ensures writer.stats == StatsDocAfter(old(writer.stats), run)
      ensures writer.progress == ProgressDocAfter(old(writer.progress), run, now)
      ensures writer.results == old(writer.results)
    {
      ghost var ap := Appendable(writer.ReadStats());
      var sql := InsertSql(Cli, table, cols);
      ChunkCount(records, b);
      run := NoRun;
      var i := 0;
      ghost var k := 0;
      while i < |records|
        invariant k <= |Batches(j)| && i == k * b
        invariant i < |records| <==> k < |Batches(j)|
        invariant run.failure.None? && (!ap ==> run.stats == [])
        invariant RunFrom(j, accepts, ap, k, run) == RunFrom(j, accepts, ap, 0, NoRun)
        invariant db == old(db) + run.commits && batchStats == old(batchStats) + run.stats
        invariant writer.stats == StatsDocAfter(old(writer.stats), run)
        invariant writer.progress == ProgressDocAfter(old(writer.progress), run, now)
        invariant writer.results == old(writer.results)
        decreases |records| - i
      {
        var next := CliBatch(j, table, cols, records, b, sql, k, i, run, now,
                             old(db), old(batchStats), old(writer.stats), old(writer.progress));
        if next.failure.Some? {
          return next;
        }
        run := next;
        AdvanceBatch(records, b, k);
        i, k := i + b, k + 1;
      }
    }

    /**
     * One pass of `insert_batch`'s loop: batch `k` sent and committed, its
     * stat kept and written, and the progress updated; or the error that
     * stops the run. `db0`, `stats0`, ... are the state before the run.
     */
    method CliBatch(ghost j: Job, table: string, cols: seq<string>, records: seq<Value>, b: nat, sql: string,
                    ghost k: nat, i: nat, run: Run, now: string, ghost db0: seq<Commit>, ghost batchStats0: seq<BatchStat>,
                    ghost stats0: Option<Dict>, ghost progress0: Option<Dict>)
      returns (next: Run)
      requires j.loader == Cli && j.table == table && j.cols == cols && j.records == records
      requires j.size == b && j.sql == sql
      requires b > 0 && k < |Batches(j)| && i == k * b
      requires run.failure.None?
      requires !Appendable(ReadDoc(stats0)) ==> run.stats == []
      requires db == db0 + run.commits && batchStats == batchStats0 + run.stats
      requires writer.stats == StatsDocAfter(stats0, run)
      requires writer.progress == ProgressDocAfter(progress0, run, now)
      modifies this, writer
      ensures next.failure.Some? ==> next == RunFrom(j, accepts, Appendable(ReadDoc(stats0)), k, run)
      ensures next.failure.None? ==>
        RunFrom(j, accepts, Appendable(ReadDoc(stats0)), k, run) == RunFrom(j, accepts, Appendable(ReadDoc(stats0)), k + 1, next)
      ensures !Appendable(ReadDoc(stats0)) ==> next.failure.Some? || next.stats == []
      ensures db == db0 + next.commits && batchStats == batchStats0 + next.stats
      ensures writer.stats == StatsDocAfter(stats0, next)
      ensures writer.progress == ProgressDocAfter(progress0, next, now)
      ensures writer.results == old(writer.results)
    {
      ghost var ap := Appendable(ReadDoc(stats0));
      var c;
      next, c := SendBatch(j, Cli, table, cols, records, b, sql, accepts, ap, k, i, run);
      if next.failure.Some? {
        DocsAfterStop(stats0, progress0, run, next.failure.value, now);
        return;
      }
      BatchNumberAt(k, b);
      assert i / b + 1 == k + 1;
      next := KeepBatch(table, c, next, i / b + 1, now, run, db0, batchStats0, stats0, progress0);
    }

    /**
     * The rest of the pass once batch `batchNumber` is committed: the commit
     * and the stat kept, the stat and the progress written; a stats document
     * that cannot take the stat stops the run after the commit.
     */
    method KeepBatch(table: string, c: Commit, sent: Run, batchNumber: nat, now: string, ghost run: Run,
                     ghost db0: seq<Commit>, ghost batchStats0: seq<BatchStat>,
                     ghost stats0: Option<Dict>, ghost progress0: Option<Dict>)
      returns (next: Run)
      requires run.failure.None?
      requires !Appendable(ReadDoc(stats0)) ==> run.stats == []
      requires sent == Run(run.commits + [c], run.stats + [BatchStat(batchNumber, table, |c.rows|, run.total + |c.rows|)],
                           run.total + |c.rows|, None)
      requires db == db0 + run.commits && batchStats == batchStats0 + run.stats
      requires writer.stats == StatsDocAfter(stats0, run)
      requires writer.progress == ProgressDocAfter(progress0, run, now)
      modifies this, writer
      ensures next == if Appendable(ReadDoc(stats0)) then sent
                      else sent.(failure := Some(StatsNotAppendable(batchNumber)))
      ensures db == db0 + next.commits && batchStats == batchStats0 + next.stats
      ensures writer.stats == StatsDocAfter(stats0, next)
      ensures writer.progress == ProgressDocAfter(progress0, next, now)
      ensures writer.results == old(writer.results)
    {
      db := db + [c];
      var stat := BatchStat(batchNumber, table, |c.rows|, sent.total);
      batchStats := batchStats + [stat];
      assert db == db0 + sent.commits by {
        assert (db0 + run.commits) + [c] == db0 + (run.commits + [c]);
      }
      assert batchStats == batchStats0 + sent.stats by {
        assert (batchStats0 + run.stats) + [stat] == batchStats0 + (run.stats + [stat]);
      }
      var ok := RecordBatch(stat, now, stats0, progress0, run);
      next := sent;
      if !ok {
        next := next.(failure := Some(StatsNotAppendable(batchNumber)));
        DocsAfterRefused(stats0, progress0, run, next, now);
      } else {
        DocsAfterStat(stats0, progress0, run, next, stat, now, writer.stats, writer.progress);
      }
    }

    /**
     * `add_batch_stat(batch_stat)` and then `update_progress(current_batch=...,
     * total_records_processed=...)`, the batches of `run` having been reported
     * to a writer whose documents were `stats0` and `progress0`. The append
     * fails exactly when the stats document could not take one from the start.
     */
    method RecordBatch(stat: BatchStat, now: string, ghost stats0: Option<Dict>, ghost progress0: Option<Dict>,
                       ghost run: Run) returns (ok: bool)
      requires run.failure.None?
      requires !Appendable(ReadDoc(stats0)) ==> run.stats == []
      requires writer.stats == StatsDocAfter(stats0, run)
      requires writer.progress == ProgressDocAfter(progress0, run, now)
      modifies writer
      ensures ok == Appendable(ReadDoc(stats0))
      ensures ok ==> writer.stats == Some(Appended(old(writer.ReadStats()), StatDoc(stat)))
      ensures ok ==> writer.progress == Some(ProgressUpdated(old(writer.ReadProgress()), BatchProgress(stat), now))
      ensures !ok ==> writer.stats == old(writer.stats) && writer.progress == old(writer.progress)
      ensures writer.results == old(writer.results)
    {
      if Appendable(ReadDoc(stats0)) {
        AppendStatsSpec(ReadDoc(stats0), run.stats, "");
      }
      BatchAppendedSpec(writer.ReadStats(), StatDoc(stat), "");
      ok := writer.AddBatchStat(StatDoc(stat));
      if ok {
        BatchProgressGet(stat, "");
        writer.UpdateProgress(BatchProgress(stat), now);
      }
    }

    /** `process_file(f)`: the outcome and the new state are those `ProcessSpec` gives. */
    method ProcessFile(f: DataFile, now: string) returns (result: FileResult)
      modifies this, writer
      ensures var st := ProcessSpec(schema, accepts, f, old(writer.stats), old(writer.progress), now);
        result == st.result && db == old(db) + st.run.commits && batchStats == old(batchStats) + st.run.stats &&
        writer.stats == st.stats && writer.progress == st.progress && writer.results == old(writer.results)
    {
      var table := TableForFilename(f.name);
      if table.None? {
        return FileResult(f.name, None, Skipped);
      }
      var t := table.value;
      assert DistinctKeys(CurrentFile(f.name));
      writer.UpdateProgress(CurrentFile(f.name), now);
      if f.content.None? {
        return FileResult(f.name, Some(t), Failed(ReadFailed));
      }
      if !f.content.value.List? {
        return FileResult(f.name, None, InvalidFormat);
      }
      var items := f.content.value.items;
      var run := InsertBatch(t, items, DefaultBatchSize, now);
      if run.failure.Some? {
        return FileResult(f.name, Some(t), Failed(LoadFailed(run.failure.value)));
      }
      var ok := writer.CompleteFile(now);
      if !ok {
        return FileResult(f.name, Some(t), Failed(NotCountable));
      }
      result := FileResult(f.name, Some(t), Succeeded(|items|, run.total));
    }

    /**
     * `migrate_all_files()`: the missing directory's error, nothing for an
     * empty selection, and otherwise the selection processed in order after
     * `start_migration`, up to the interrupt, which `error_migration` records.
     */
    method MigrateAllFiles(dirExists: bool, files: seq<DataFile>, interruptAt: Option<nat>, now: string)
      returns (r: Result<seq<FileResult>, string>)
      modifies this, writer
      ensures var (res, m) := MigrateSpec(schema, accepts, dirExists, files, interruptAt, writer.provider, writer.instance,
                                          old(writer.stats), old(writer.progress), now);
        r == res && db == old(db) + m.commits && batchStats == old(batchStats) + m.stats &&
        writer.stats == m.statsDoc && writer.progress == m.progressDoc && writer.results == old(writer.results)
    {
      if !dirExists {
        return Err(MissingDirMessage);
      }
      var sel := SelectFiles(files);
      if |sel| == 0 {
        return Ok([]);
      }
      writer.StartMigration(|sel|, now);
      var n := Processed(|sel|, interruptAt);
      var results := ProcessAll(sel[..n], now);
      if n < |sel| {
        writer.ErrorMigration(InterruptMessage, now);
      }
      r := Ok(results);
    }

    /** The loop of `migrate_all_files` over the files it gets to. */
    method ProcessAll(fs: seq<DataFile>, now: string) returns (results: seq<FileResult>)
      modifies this, writer
      ensures var m := RunFiles(schema, accepts, fs, old(writer.stats), old(writer.progress), now);
        results == m.results && db == old(db) + m.commits && batchStats == old(batchStats) + m.stats &&
        writer.stats == m.statsDoc && writer.progress == m.progressDoc && writer.results == old(writer.results)
    {
      ghost var stats0, progress0 := writer.stats, writer.progress;
      results := [];
      var i := 0;
      while i < |fs|
        invariant i <= |fs|
        invariant var m := RunFiles(schema, accepts, fs[..i], stats0, progress0, now);
          results == m.results && db == old(db) + m.commits && batchStats == old(batchStats) + m.stats &&
          writer.stats == m.statsDoc && writer.progress == m.progressDoc
        invariant writer.results == old(writer.results)
        decreases |fs| - i
      {
        ghost var m := RunFiles(schema, accepts, fs[..i], stats0, progress0, now);
        ghost var st := ProcessSpec(schema, accepts, fs[i], m.statsDoc, m.progressDoc, now);
        var result := ProcessFile(fs[i], now);
        RunFilesStep(schema, accepts, fs, i, stats0, progress0, now);
        ConcatAssoc(old(db), m.commits, st.run.commits);
        ConcatAssoc(old(batchStats), m.stats, st.run.stats);
        results := results + [result];
        i := i + 1;
      }
      assert fs[..i] == fs;
    }

    /**
     * `main()`: after the migration, the summary `complete_migration` saves,
     * or, when `migrate_all_files` raised, `error_migration` with its message.
     */
    method RunMigration(dirExists: bool, files: seq<DataFile>, interruptAt: Option<nat>, now: string,
                        reason: FileError -> string)
      returns (r: Result<Dict, string>)
      modifies this, writer
      ensures var (res, m) := MigrateSpec(schema, accepts, dirExists, files, interruptAt, writer.provider, writer.instance,
                                          old(writer.stats), old(writer.progress), now);
        db == old(db) + m.commits && batchStats == old(batchStats) + m.stats && writer.stats == m.statsDoc &&
        (res.Err? ==>
          r == Err(res.error) && writer.results == old(writer.results) &&
          writer.progress == Some(MigrationFailed(ReadDoc(m.progressDoc), res.error, now))) &&
        (res.Ok? ==>
          r == Ok(FinalResults(FinalResultsDoc(res.value, reason), now, writer.provider, writer.instance)) &&
          writer.results == Some(r.value) && writer.progress == Some(MigrationCompleted(ReadDoc(m.progressDoc), now)))
    {
      var res := MigrateAllFiles(dirExists, files, interruptAt, now);
      if res.Err? {
        writer.ErrorMigration(res.error, now);
        return Err(res.error);
      }
      var saved := writer.CompleteMigration(FinalResultsDoc(res.value, reason), now);
      r := Ok(saved);
    }
  }

  // ------------------------------------------------------------ what a file does

  /** After the load: a stop is the file's error; otherwise a success with the load's total inserted. */
  lemma LoadedOutcome(name: string, t: string, count: nat, run: Run, stats: Option<Dict>, p1: Option<Dict>, now: string)
    ensures var o := ProcessLoaded(name, t, count, run, stats, p1, now).result.outcome;
      (o.Succeeded? ==> run.failure.None? && o.processed == count && o.inserted == run.total) &&
      (run.failure.Some? <==> o.Failed? && o.error.LoadFailed?) &&
      (run.failure.Some? ==> o.error.error == run.failure.value)
  {
  }

  /** After the load, the progress keys other than the batch ones read as before, but for `complete_file`'s. */
  lemma LoadedProgressGet(name: string, t: string, count: nat, run: Run, stats: Option<Dict>, p1: Option<Dict>,
                          now: string, k: string)
    requires ReportableRun(run, stats)
    requires k != "last_update" && k != "current_batch" && k != "total_records_processed"
    ensures var st := ProcessLoaded(name, t, count, run, stats, p1, now);
      Get(ReadDoc(st.progress), k) ==
        if st.result.outcome.Succeeded? && k == "current_file" then Some(Str(""))
        else if st.result.outcome.Succeeded? && k == "files_completed" then Incremented(Get(ReadDoc(p1), k))
        else Get(ReadDoc(p1), k)
  {
    WriterAfterRun(run, stats, p1, now, k);
    FileCompletedSpec(ReadDoc(ProgressDocAfter(p1, run, now)), now, k);
  }

  /** After the load, the stats document holds the stats written after its batches, and nothing else changed. */
  lemma LoadedStats(name: string, t: string, count: nat, run: Run, stats: Option<Dict>, p1: Option<Dict>,
                    now: string, k: string)
    requires ReportableRun(run, stats)
    ensures var st := ProcessLoaded(name, t, count, run, stats, p1, now);
      BatchList(ReadDoc(st.stats)) == BatchList(ReadDoc(stats)) + StatDocs(WrittenStats(run)) &&
      (k != "batches" ==> Get(ReadDoc(st.stats), k) == Get(ReadDoc(stats), k)) &&
      (Appendable(ReadDoc(stats)) ==> Appendable(ReadDoc(st.stats)))
  {
    StatsAfterRun(stats, run, k);
  }

  /** Writing a run's stats appends them to the "batches" list and touches no other key. */
  lemma StatsAfterRun(stats: Option<Dict>, run: Run, k: string)
    requires ReportableRun(run, stats)
    ensures var s2 := StatsDocAfter(stats, run);
      BatchList(ReadDoc(s2)) == BatchList(ReadDoc(stats)) + StatDocs(WrittenStats(run)) &&
      (k != "batches" ==> Get(ReadDoc(s2), k) == Get(ReadDoc(stats), k)) &&
      (Appendable(ReadDoc(stats)) ==> Appendable(ReadDoc(s2)))
  {
    if |WrittenStats(run)| > 0 {
      AppendStatsSpec(ReadDoc(stats), run.stats, k);
    } else {
      assert BatchList(ReadDoc(stats)) + StatDocs([]) == BatchList(ReadDoc(stats));
    }
  }

  lemma KnownLoad(schema: map<string, seq<string>>, accepts: Commit -> bool, f: DataFile, t: string,
                  stats: Option<Dict>, p1: Option<Dict>, now: string)
    ensures var st := ProcessKnown(schema, accepts, f, t, stats, p1, now);
      var o := st.result.outcome;
      (o.Succeeded? ==>
        f.content.Some? && f.content.value.List? && st.run.failure.None? &&
        o.processed == |f.content.value.items| &&
        o.inserted == if |TableColumns(schema, t)| == 0 then 0 else o.processed) &&
      (st.run.failure.Some? <==> o.Failed? && o.error.LoadFailed?) &&
      (st.run.failure.Some? ==> o.error.error == st.run.failure.value) &&
      (o == Failed(ReadFailed) <==> f.content.None?) &&
      (o.InvalidFormat? <==> f.content.Some? && !f.content.value.List?)
  {
    if f.content.Some? && f.content.value.List? {
      KnownLoadList(schema, accepts, f, t, stats, p1, now);
    }
  }

  lemma KnownLoadList(schema: map<string, seq<string>>, accepts: Commit -> bool, f: DataFile, t: string,
                      stats: Option<Dict>, p1: Option<Dict>, now: string)
    requires f.content.Some? && f.content.value.List?
    ensures var st := ProcessKnown(schema, accepts, f, t, stats, p1, now);
      var o := st.result.outcome;
      (o.Succeeded? ==>
        st.run.failure.None? && o.processed == |f.content.value.items| &&
        o.inserted == if |TableColumns(schema, t)| == 0 then 0 else o.processed) &&
      (st.run.failure.Some? <==> o.Failed? && o.error.LoadFailed?) &&
      (st.run.failure.Some? ==> o.error.error == st.run.failure.value) &&
      (o.Failed? || o.Succeeded?) && o != Failed(ReadFailed)
  {
    var items := f.content.value.items;
    var cols := TableColumns(schema, t);
    var run := Load(Cli, t, cols, items, DefaultBatchSize, accepts, Appendable(ReadDoc(stats)));
    CliLoadFacts(t, cols, items, DefaultBatchSize, accepts, stats);
    LoadedOutcome(f.name, t, |items|, run, stats, p1, now);
  }

  lemma KnownProgressGet(schema: map<string, seq<string>>, accepts: Commit -> bool, f: DataFile, t: string,
                         stats: Option<Dict>, p1: Option<Dict>, now: string, k: string)
    requires k != "last_update" && k != "current_batch" && k != "total_records_processed"
    ensures var st := ProcessKnown(schema, accepts, f, t, stats, p1, now);
      Get(ReadDoc(st.progress), k) ==
        if st.result.outcome.Succeeded? && k == "current_file" then Some(Str(""))
        else if st.result.outcome.Succeeded? && k == "files_completed" then Incremented(Get(ReadDoc(p1), k))
        else Get(ReadDoc(p1), k)
  {
    if f.content.Some? && f.content.value.List? {
      var items := f.content.value.items;
      CliLoadFacts(t, TableColumns(schema, t), items, DefaultBatchSize, accepts, stats);
      var run := Load(Cli, t, TableColumns(schema, t), items, DefaultBatchSize, accepts, Appendable(ReadDoc(stats)));
      LoadedProgressGet(f.name, t, |items|, run, stats, p1, now, k);
    }
  }

  lemma KnownStats(schema: map<string, seq<string>>, accepts: Commit -> bool, f: DataFile, t: string,
                   stats: Option<Dict>, p1: Option<Dict>, now: string, k: string)
    ensures var st := ProcessKnown(schema, accepts, f, t, stats, p1, now);
      BatchList(ReadDoc(st.stats)) == BatchList(ReadDoc(stats)) + StatDocs(WrittenStats(st.run)) &&
      (k != "batches" ==> Get(ReadDoc(st.stats), k) == Get(ReadDoc(stats), k)) &&
      (Appendable(ReadDoc(stats)) ==> Appendable(ReadDoc(st.stats)) && WrittenStats(st.run) == st.run.stats)
  {
    if f.content.Some? && f.content.value.List? {
      var items := f.content.value.items;
      CliLoadFacts(t, TableColumns(schema, t), items, DefaultBatchSize, accepts, stats);
      var run := Load(Cli, t, TableColumns(schema, t), items, DefaultBatchSize, accepts, Appendable(ReadDoc(stats)));
      LoadedStats(f.name, t, |items|, run, stats, p1, now, k);
    } else {
      assert BatchList(ReadDoc(stats)) + StatDocs([]) == BatchList(ReadDoc(stats));
    }
  }

  /**
   * The result `process_file` gives: it names the file; an unknown name is
   * skipped and content that is not a list rejected, both without a table;
   * every other result carries the table the name maps to.
   */
  lemma ProcessResultSpec(schema: map<string, seq<string>>, accepts: Commit -> bool, f: DataFile,
                          stats: Option<Dict>, progress: Option<Dict>, now: string)
    ensures var r := ProcessSpec(schema, accepts, f, stats, progress, now).result;
      r.filename == f.name &&
      (r.outcome.Skipped? <==> TableForFilename(f.name).None?) &&
      (r.outcome == Failed(ReadFailed) <==> TableForFilename(f.name).Some? && f.content.None?) &&
      (r.outcome.InvalidFormat? <==> TableForFilename(f.name).Some? && f.content.Some? && !f.content.value.List?) &&
      (r.table.None? <==> r.outcome.Skipped? || r.outcome.InvalidFormat?) &&
      (r.table.Some? ==> r.table == TableForFilename(f.name))
  {
    match TableForFilename(f.name)
      case None =>
      case Some(t) =>
        KnownLoad(schema, accepts, f, t, stats, Some(ProgressUpdated(ReadDoc(progress), CurrentFile(f.name), now)), now);
  }

  /**
   * A success read a list of records from a file of a known table and loaded
   * every batch: each record counts as processed and, unless the table has
   * no columns, as inserted. A load that stops makes the file an error that
   * carries the reason. A skipped file changes nothing.
   */
  lemma ProcessLoadSpec(schema: map<string, seq<string>>, accepts: Commit -> bool, f: DataFile,
                        stats: Option<Dict>, progress: Option<Dict>, now: string)
    ensures var st := ProcessSpec(schema, accepts, f, stats, progress, now);
      var o := st.result.outcome;
      (o.Succeeded? ==>
        TableForFilename(f.name).Some? && f.content.Some? && f.content.value.List? && st.run.failure.None? &&
        o.processed == |f.content.value.items| &&
        o.inserted == if |TableColumns(schema, TableForFilename(f.name).value)| == 0 then 0 else o.processed) &&
      (st.run.failure.Some? <==> o.Failed? && o.error.LoadFailed?) &&
      (st.run.failure.Some? ==> o.error.error == st.run.failure.value) &&
      (o.Skipped? ==> st.run == NoRun && st.stats == stats && st.progress == progress)
  {
    match TableForFilename(f.name)
      case None =>
      case Some(t) =>
        KnownLoad(schema, accepts, f, t, stats, Some(ProgressUpdated(ReadDoc(progress), CurrentFile(f.name), now)), now);
  }

  /**
   * What `process_file` leaves in the progress document, key by key (other
   * than the three every batch sets): a skipped file leaves it alone; any
   * other file becomes the current one and stays it unless it succeeds, when
   * `complete_file` clears it and counts one more completed file.
   */
  lemma ProcessProgressGet(schema: map<string, seq<string>>, accepts: Commit -> bool, f: DataFile,
                           stats: Option<Dict>, progress: Option<Dict>, now: string, k: string)
    requires k != "last_update" && k != "current_batch" && k != "total_records_processed"
    ensures var st := ProcessSpec(schema, accepts, f, stats, progress, now);
      Get(ReadDoc(st.progress), k) ==
        if st.result.outcome.Skipped? then Get(ReadDoc(progress), k)
        else if k == "current_file" then Some(Str(if st.result.outcome.Succeeded? then "" else f.name))
        else if k == "files_completed" && st.result.outcome.Succeeded? then Incremented(Get(ReadDoc(progress), k))
        else Get(ReadDoc(progress), k)
  {
    match TableForFilename(f.name)
      case None =>
      case Some(t) =>
        var u := CurrentFile(f.name);
        var p1 := ProgressUpdated(ReadDoc(progress), u, now);
        assert DistinctKeys(u);
        GetFirst(u, k);
        ProgressUpdatedSpec(ReadDoc(progress), u, now, k);
        KnownProgressGet(schema, accepts, f, t, stats, Some(p1), now, k);
  }

  /**
   * What `process_file` leaves in the stats document: the stats of the
   * batches it wrote after the batches there were, every other key as it
   * was; a document that could take a stat still can, and took them all.
   */
  lemma ProcessStatsSpec(schema: map<string, seq<string>>, accepts: Commit -> bool, f: DataFile,
                         stats: Option<Dict>, progress: Option<Dict>, now: string, k: string)
    ensures var st := ProcessSpec(schema, accepts, f, stats, progress, now);
      BatchList(ReadDoc(st.stats)) == BatchList(ReadDoc(stats)) + StatDocs(WrittenStats(st.run)) &&
      (k != "batches" ==> Get(ReadDoc(st.stats), k) == Get(ReadDoc(stats), k)) &&
      (Appendable(ReadDoc(stats)) ==> Appendable(ReadDoc(st.stats)) && WrittenStats(st.run) == st.run.stats)
  {
    match TableForFilename(f.name)
      case None =>
        assert BatchList(ReadDoc(stats)) + StatDocs([]) == BatchList(ReadDoc(stats));
      case Some(t) =>
        KnownStats(schema, accepts, f, t, stats, Some(ProgressUpdated(ReadDoc(progress), CurrentFile(f.name), now)), now, k);
  }

  // ------------------------------------------------------------ the file loop

  lemma {:induction false} StatDocsConcat(xs: seq<BatchStat>, ys: seq<BatchStat>)
    ensures StatDocs(xs + ys) == StatDocs(xs) + StatDocs(ys)
    decreases |ys|
  {
    if |ys| == 0 {
      assert xs + ys == xs;
    } else {
      var zs := ys[..|ys| - 1];
      assert (xs + ys)[..|xs + ys| - 1] == xs + zs;
      StatDocsConcat(xs, zs);
      ConcatAssoc(StatDocs(xs), StatDocs(zs), [StatDoc(ys[|ys| - 1])]);
    }
  }

  /** The loop gives one result per file, in the order of the files, each naming its file. */
  lemma {:induction false} RunFilesNames(schema: map<string, seq<string>>, accepts: Commit -> bool, fs: seq<DataFile>,
                                         statsDoc: Option<Dict>, progressDoc: Option<Dict>, now: string)
    ensures var m := RunFiles(schema, accepts, fs, statsDoc, progressDoc, now);
      |m.results| == |fs| && forall i :: 0 <= i < |fs| ==> m.results[i].filename == fs[i].name
    decreases |fs|
  {
    if |fs| > 0 {
      var m := RunFiles(schema, accepts, fs[..|fs| - 1], statsDoc, progressDoc, now);
      RunFilesNames(schema, accepts, fs[..|fs| - 1], statsDoc, progressDoc, now);
      ProcessResultSpec(schema, accepts, fs[|fs| - 1], m.statsDoc, m.progressDoc, now);
    }
  }

  /** No file of the loop touches a progress key other than the five `process_file` sets. */
  lemma {:induction false} RunFilesProgressKeeps(schema: map<string, seq<string>>, accepts: Commit -> bool,
                                                 fs: seq<DataFile>, statsDoc: Option<Dict>, progressDoc: Option<Dict>,
                                                 now: string, k: string)
    requires k != "last_update" && k != "current_batch" && k != "total_records_processed"
    requires k != "current_file" && k != "files_completed"
    ensures Get(ReadDoc(RunFiles(schema, accepts, fs, statsDoc, progressDoc, now).progressDoc), k)
         == Get(ReadDoc(progressDoc), k)
    decreases |fs|
  {
    if |fs| > 0 {
      var m := RunFiles(schema, accepts, fs[..|fs| - 1], statsDoc, progressDoc, now);
      RunFilesProgressKeeps(schema, accepts, fs[..|fs| - 1], statsDoc, progressDoc, now, k);
      ProcessProgressGet(schema, accepts, fs[|fs| - 1], m.statsDoc, m.progressDoc, now, k);
    }
  }

  /** `process_file` counts one more completed file exactly when it succeeds. */
  lemma ProcessCompletedCases(schema: map<string, seq<string>>, accepts: Commit -> bool, f: DataFile,
                              stats: Option<Dict>, progress: Option<Dict>, now: string, c: nat)
    requires Get(ReadDoc(progress), "files_completed") == Some(Int(c))
    ensures var r := ProcessSpec(schema, accepts, f, stats, progress, now);
      r.result.outcome.Succeeded? ==> Get(ReadDoc(r.progress), "files_completed") == Some(Int(c + 1))
    ensures var r := ProcessSpec(schema, accepts, f, stats, progress, now);
      !r.result.outcome.Succeeded? ==> Get(ReadDoc(r.progress), "files_completed") == Some(Int(c))
  {
    ProcessProgressGet(schema, accepts, f, stats, progress, now, "files_completed");
    IncrementedCount(Get(ReadDoc(progress), "files_completed"), c);
  }

  lemma CountByOutcome(x: Option<Value>, r: FileResult, c: nat)
    requires r.outcome.Succeeded? ==> x == Some(Int(c + 1))
    requires !r.outcome.Succeeded? ==> x == Some(Int(c))
    ensures x == Some(Int(c + SuccessCount(r)))
  {
  }

  lemma ProcessCompletedCount(schema: map<string, seq<string>>, accepts: Commit -> bool, f: DataFile,
                              stats: Option<Dict>, progress: Option<Dict>, now: string, c: nat)
    requires Get(ReadDoc(progress), "files_completed") == Some(Int(c))
    ensures var r := ProcessSpec(schema, accepts, f, stats, progress, now);
      Get(ReadDoc(r.progress), "files_completed") == Some(Int(c + SuccessCount(r.result)))
  {
    var st := ProcessSpec(schema, accepts, f, stats, progress, now);
    ProcessCompletedCases(schema, accepts, f, stats, progress, now, c);
    CountByOutcome(Get(ReadDoc(st.progress), "files_completed"), st.result, c);
  }

  /** From a count of 0, `files_completed` ends at the number of successes. */
  lemma {:induction false} RunFilesCompleted(schema: map<string, seq<string>>, accepts: Commit -> bool,
                                             fs: seq<DataFile>, statsDoc: Option<Dict>, progressDoc: Option<Dict>,
                                             now: string)
    requires Get(ReadDoc(progressDoc), "files_completed") == Some(Int(0))
    ensures var m := RunFiles(schema, accepts, fs, statsDoc, progressDoc, now);
      Get(ReadDoc(m.progressDoc), "files_completed") == Some(Int(Successes(m.results)))
    decreases |fs|
  {
    if |fs| > 0 {
      var m := RunFiles(schema, accepts, fs[..|fs| - 1], statsDoc, progressDoc, now);
      var st := ProcessSpec(schema, accepts, fs[|fs| - 1], m.statsDoc, m.progressDoc, now);
      var rs := m.results + [st.result];
      RunFilesCompleted(schema, accepts, fs[..|fs| - 1], statsDoc, progressDoc, now);
      ProcessCompletedCount(schema, accepts, fs[|fs| - 1], m.statsDoc, m.progressDoc, now, Successes(m.results));
      assert rs[..|rs| - 1] == m.results;
      assert Successes(rs) == Successes(m.results) + SuccessCount(st.result);
    }
  }

  /**
   * On a stats document that can take them, the loop's documents list
   * exactly the batch stats the loader keeps, in order, after the batches
   * there were, and leave every other key alone.
   */
  lemma {:induction false} RunFilesStats(schema: map<string, seq<string>>, accepts: Commit -> bool,
                                         fs: seq<DataFile>, statsDoc: Option<Dict>, progressDoc: Option<Dict>,
                                         now: string, k: string)
    requires Appendable(ReadDoc(statsDoc))
    ensures var m := RunFiles(schema, accepts, fs, statsDoc, progressDoc, now);
      Appendable(ReadDoc(m.statsDoc)) &&
      BatchList(ReadDoc(m.statsDoc)) == BatchList(ReadDoc(statsDoc)) + StatDocs(m.stats) &&
      (k != "batches" ==> Get(ReadDoc(m.statsDoc), k) == Get(ReadDoc(statsDoc), k))
    decreases |fs|
  {
    if |fs| == 0 {
      assert BatchList(ReadDoc(statsDoc)) + StatDocs([]) == BatchList(ReadDoc(statsDoc));
    } else {
      var m := RunFiles(schema, accepts, fs[..|fs| - 1], statsDoc, progressDoc, now);
      var st := ProcessSpec(schema, accepts, fs[|fs| - 1], m.statsDoc, m.progressDoc, now);
      RunFilesStats(schema, accepts, fs[..|fs| - 1], statsDoc, progressDoc, now, k);
      ProcessStatsSpec(schema, accepts, fs[|fs| - 1], m.statsDoc, m.progressDoc, now, k);
      StatDocsConcat(m.stats, st.run.stats);
      ConcatAssoc(BatchList(ReadDoc(statsDoc)), StatDocs(m.stats), StatDocs(st.run.stats));
    }
  }

  // ------------------------------------------------------------ the whole migration

  /**
   * `migrate_all_files` fails only for a missing directory, and then changes
   * nothing; otherwise it gives one result per file it got to, in the sorted
   * order of the selection, which is all of it unless interrupted.
   */
  lemma MigrateResults(schema: map<string, seq<string>>, accepts: Commit -> bool, dirExists: bool, files: seq<DataFile>,
                       interruptAt: Option<nat>, provider: Option<string>, instance: Option<string>,
                       stats: Option<Dict>, progress: Option<Dict>, now: string)
    ensures var (res, m) := MigrateSpec(schema, accepts, dirExists, files, interruptAt, provider, instance, stats, progress, now);
      var sel := SelectFiles(files);
      (res.Err? <==> !dirExists) &&
      (res.Err? ==> res.error == MissingDirMessage && m == Migration([], [], [], stats, progress)) &&
      (res.Ok? ==>
        res.value == m.results && |res.value| == Processed(|sel|, interruptAt) &&
        forall i :: 0 <= i < |res.value| ==> res.value[i].filename == sel[i].name)
  {
    var sel := SelectFiles(files);
    if dirExists && |sel| > 0 {
      var n := Processed(|sel|, interruptAt);
      RunFilesNames(schema, accepts, sel[..n], Some(StartStats(provider, instance)),
                    Some(StartProgress(|sel|, now, provider, instance)), now);
    }
  }

  /**
   * After a migration that found files, the progress document says
   * "running", or "error" with the interrupt's message when interrupted,
   * and counts the selection and the successes.
   */
  lemma MigrateProgress(schema: map<string, seq<string>>, accepts: Commit -> bool, files: seq<DataFile>,
                        interruptAt: Option<nat>, provider: Option<string>, instance: Option<string>,
                        stats: Option<Dict>, progress: Option<Dict>, now: string)
    requires |SelectFiles(files)| > 0
    ensures var (res, m) := MigrateSpec(schema, accepts, true, files, interruptAt, provider, instance, stats, progress, now);
      var sel := SelectFiles(files);
      var interrupted := Processed(|sel|, interruptAt) < |sel|;
      var p := ReadDoc(m.progressDoc);
      Get(p, "status") == Some(Str(if interrupted then "error" else "running")) &&
      (interrupted ==> Get(p, "error_message") == Some(Str(InterruptMessage))) &&
      Get(p, "total_files") == Some(Int(|sel|)) &&
      Get(p, "files_completed") == Some(Int(Successes(m.results)))
  {
    var sel := SelectFiles(files);
    var n := Processed(|sel|, interruptAt);
    var s0, p0 := Some(StartStats(provider, instance)), Some(StartProgress(|sel|, now, provider, instance));
    var m := RunFiles(schema, accepts, sel[..n], s0, p0, now);
    StartedRunProgress(schema, accepts, sel[..n], s0, |sel|, now, provider, instance);
    if n < |sel| {
      var p := ReadDoc(m.progressDoc);
      MigrationFailedSpec(p, InterruptMessage, now, "status");
      MigrationFailedSpec(p, InterruptMessage, now, "error_message");
      MigrationFailedSpec(p, InterruptMessage, now, "total_files");
      MigrationFailedSpec(p, InterruptMessage, now, "files_completed");
    }
  }

  /** The loop after `start_migration(total)` keeps the status "running" and the file count, and counts the successes. */
  lemma StartedRunProgress(schema: map<string, seq<string>>, accepts: Commit -> bool, fs: seq<DataFile>,
                           s0: Option<Dict>, total: int, now: string, provider: Option<string>, instance: Option<string>)
    ensures var m := RunFiles(schema, accepts, fs, s0, Some(StartProgress(total, now, provider, instance)), now);
      var p := ReadDoc(m.progressDoc);
      Get(p, "status") == Some(Str("running")) && Get(p, "total_files") == Some(Int(total)) &&
      Get(p, "files_completed") == Some(Int(Successes(m.results)))
  {
    var p0 := Some(StartProgress(total, now, provider, instance));
    StartedRunKeeps(schema, accepts, fs, s0, total, now, provider, instance, "status");
    StartedRunKeeps(schema, accepts, fs, s0, total, now, provider, instance, "total_files");
    StartProgressValues(total, now, provider, instance);
    RunFilesCompleted(schema, accepts, fs, s0, p0, now);
  }

  lemma StartedRunKeeps(schema: map<string, seq<string>>, accepts: Commit -> bool, fs: seq<DataFile>,
                        s0: Option<Dict>, total: int, now: string, provider: Option<string>, instance: Option<string>,
                        k: string)
    requires k != "last_update" && k != "current_batch" && k != "total_records_processed"
    requires k != "current_file" && k != "files_completed"
    ensures var p0 := StartProgress(total, now, provider, instance);
      Get(ReadDoc(RunFiles(schema, accepts, fs, s0, Some(p0), now).progressDoc), k) == Get(p0, k)
  {
    RunFilesProgressKeeps(schema, accepts, fs, s0, Some(StartProgress(total, now, provider, instance)), now, k);
  }

  /**
   * After a migration that found files, the stats document lists exactly
   * the batch stats the loader kept, in order, beside the metadata
   * `start_migration` wrote.
   */
  lemma MigrateStats(schema: map<string, seq<string>>, accepts: Commit -> bool, files: seq<DataFile>,
                     interruptAt: Option<nat>, provider: Option<string>, instance: Option<string>,
                     stats: Option<Dict>, progress: Option<Dict>, now: string, k: string)
    requires |SelectFiles(files)| > 0
    ensures var (res, m) := MigrateSpec(schema, accepts, true, files, interruptAt, provider, instance, stats, progress, now);
      BatchList(ReadDoc(m.statsDoc)) == StatDocs(m.stats) &&
      (k != "batches" ==> Get(ReadDoc(m.statsDoc), k) == Get(StartStats(provider, instance), k))
  {
    var sel := SelectFiles(files);
    var n := Processed(|sel|, interruptAt);
    var s0, p0 := Some(StartStats(provider, instance)), Some(StartProgress(|sel|, now, provider, instance));
    StartStatsSpec(provider, instance, "batches");
    RunFilesStats(schema, accepts, sel[..n], s0, p0, now, k);
  }

  /**
   * The results `main` saves after a migration: the overall status, which
   * is "completed" exactly when no file failed, and the counts of the summary.
   */
  lemma SavedResultsSpec(rs: seq<FileResult>, reason: FileError -> string, now: string, provider: Option<string>,
                         instance: Option<string>)
    ensures var saved := FinalResults(FinalResultsDoc(rs, reason), now, provider, instance);
      var s := Summarize(rs);
      Get(saved, "status") == Some(Str(FinalStatus(rs))) &&
      (FinalStatus(rs) == "completed" <==> forall r :: r in rs ==> Status(r) != "error") &&
      Get(saved, "total_files") == Some(Int(|rs|)) &&
      Get(saved, "successful") == Some(Int(s.successful)) &&
      Get(saved, "failed") == Some(Int(s.failed)) &&
      Get(saved, "total_records") == Some(Int(TotalRecords(rs))) &&
      Get(saved, "completion_time") == Some(Str(now))
  {
    FinalStatusSpec(rs);
    FinalResultsDocGet(rs, reason);
    SavedKeys(FinalResultsDoc(rs, reason), now, provider, instance);
  }

  /** The saved results list every file's result dict, in the order of the results. */
  lemma SavedFileResultsSpec(rs: seq<FileResult>, reason: FileError -> string, now: string,
                             provider: Option<string>, instance: Option<string>)
    ensures var saved := FinalResults(FinalResultsDoc(rs, reason), now, provider, instance);
      Get(saved, "file_results").Some? && Get(saved, "file_results").value.List? &&
      var items := Get(saved, "file_results").value.items;
      |items| == |rs| && forall i :: 0 <= i < |rs| ==> items[i] == Obj(ResultDoc(rs[i], reason))
  {
    FinalResultsDocGet(rs, reason);
    SavedKeys(FinalResultsDoc(rs, reason), now, provider, instance);
  }

  /** `complete_migration` keeps the result keys `main` writes and adds the completion time. */
  lemma SavedKeys(d: Dict, now: string, provider: Option<string>, instance: Option<string>)
    ensures var saved := FinalResults(d, now, provider, instance);
      Get(saved, "status") == Get(d, "status") && Get(saved, "total_files") == Get(d, "total_files") &&
      Get(saved, "successful") == Get(d, "successful") && Get(saved, "failed") == Get(d, "failed") &&
      Get(saved, "total_records") == Get(d, "total_records") &&
      Get(saved, "file_results") == Get(d, "file_results") &&
      Get(saved, "completion_time") == Some(Str(now))
  {
    FinalResultsSpec(d, now, provider, instance, "status");
    FinalResultsSpec(d, now, provider, instance, "total_files");
    FinalResultsSpec(d, now, provider, instance, "successful");
    FinalResultsSpec(d, now, provider, instance, "failed");
    FinalResultsSpec(d, now, provider, instance, "total_records");
    FinalResultsSpec(d, now, provider, instance, "file_results");
    FinalResultsSpec(d, now, provider, instance, "completion_time");
  }

  lemma FinalResultsDocGet(rs: seq<FileResult>, reason: FileError -> string)
    ensures var d, s := FinalResultsDoc(rs, reason), Summarize(rs);
      Get(d, "status") == Some(Str(FinalStatus(rs))) && Get(d, "total_files") == Some(Int(|rs|)) &&
      Get(d, "successful") == Some(Int(s.successful)) && Get(d, "failed") == Some(Int(s.failed)) &&
      Get(d, "total_records") == Some(Int(TotalRecords(rs))) && Get(d, "completion_time") == None &&
      Get(d, "file_results") == Some(List(ResultDocs(rs, reason)))
  {
    var s := Summarize(rs);
    ResultsEntriesGet(Str(FinalStatus(rs)), Int(s.total), Int(s.successful), Int(s.failed), Int(s.totalRecords),
                      List(ResultDocs(rs, reason)));
  }

  lemma ResultsEntriesGet(status: Value, total: Value, successful: Value, failed: Value, records: Value, files: Value)
    ensures var d := [Entry("status", status), Entry("total_files", total), Entry("successful", successful),
                      Entry("failed", failed), Entry("total_records", records), Entry("file_results", files)];
      Get(d, "status") == Some(status) && Get(d, "total_files") == Some(total) &&
      Get(d, "successful") == Some(successful) && Get(d, "failed") == Some(failed) &&
      Get(d, "total_records") == Some(records) && Get(d, "file_results") == Some(files) &&
      Get(d, "completion_time") == None
  {
    var d := [Entry("status", status), Entry("total_files", total), Entry("successful", successful),
              Entry("failed", failed), Entry("total_records", records), Entry("file_results", files)];
    GetAt(d, 0, "status");
    GetAt(d, 1, "total_files");
    GetAt(d, 2, "successful");
    GetAt(d, 3, "failed");
    GetAt(d, 4, "total_records");
    GetAt(d, 5, "file_results");
    assert forall j :: 0 <= j < |d| ==> d[j].key != "completion_time";
  }

  /**
   * A result dict names its file and its status; a loaded file's names its
   * table, a success's carries its record counts, and every other result
   * carries the reason: the fixed texts of an unknown pattern or a non-list
   * file, or the exception's text.
   */
  lemma ResultDocSpec(r: FileResult, reason: FileError -> string)
    ensures var d := ResultDoc(r, reason);
      Get(d, "filename") == Some(Str(r.filename)) && Get(d, "status") == Some(Str(Status(r))) &&
      ((r.outcome.Failed? || r.outcome.Succeeded?) ==>
        Get(d, "table") == (if r.table.Some? then Some(Str(r.table.value)) else None)) &&
      (r.outcome.Skipped? ==> Get(d, "reason") == Some(Str("unknown file pattern"))) &&
      (r.outcome.InvalidFormat? ==> Get(d, "reason") == Some(Str("invalid data format"))) &&
      (r.outcome.Failed? ==> Get(d, "reason") == Some(Str(reason(r.outcome.error)))) &&
      (r.outcome.Succeeded? ==>
        Get(d, "records_processed") == Some(Int(r.outcome.processed)) &&
        Get(d, "records_inserted") == Some(Int(r.outcome.inserted)) && Get(d, "reason") == None)
  {
    var d := ResultDoc(r, reason);
    GetAt(d, 0, "filename");
    match r.outcome {
      case Skipped => ResultDocFixed(r, reason);
      case InvalidFormat => ResultDocFixed(r, reason);
      case Failed(e) => ResultDocFailed(r, reason);
      case Succeeded(_, _) => ResultDocSucceeded(r, reason);
    }
  }

  lemma ResultDocFixed(r: FileResult, reason: FileError -> string)
    requires r.outcome.Skipped? || r.outcome.InvalidFormat?
    ensures var d := ResultDoc(r, reason);
      Get(d, "status") == Some(Str(Status(r))) &&
      Get(d, "reason") == Some(Str(if r.outcome.Skipped? then "unknown file pattern" else "invalid data format"))
  {
    var d := ResultDoc(r, reason);
    GetAt(d, 1, "status");
    GetAt(d, 2, "reason");
  }

  lemma ResultDocFailed(r: FileResult, reason: FileError -> string)
    requires r.outcome.Failed?
    ensures var d := ResultDoc(r, reason);
      Get(d, "status") == Some(Str("error")) && Get(d, "reason") == Some(Str(reason(r.outcome.error))) &&
      Get(d, "table") == (if r.table.Some? then Some(Str(r.table.value)) else None)
  {
    var d := ResultDoc(r, reason);
    if r.table.Some? {
      assert d == [d[0], Entry("table", Str(r.table.value)), Entry("status", Str("error")),
                   Entry("reason", Str(reason(r.outcome.error)))];
      GetAt(d, 1, "table");
      GetAt(d, 2, "status");
      GetAt(d, 3, "reason");
    } else {
      assert d == [d[0], Entry("status", Str("error")), Entry("reason", Str(reason(r.outcome.error)))];
      TableAbsent(d);
      GetAt(d, 1, "status");
      GetAt(d, 2, "reason");
    }
  }

  lemma ResultDocSucceeded(r: FileResult, reason: FileError -> string)
    requires r.outcome.Succeeded?
    ensures var d := ResultDoc(r, reason);
      Get(d, "status") == Some(Str("success")) && Get(d, "reason") == None &&
      Get(d, "table") == (if r.table.Some? then Some(Str(r.table.value)) else None) &&
      Get(d, "records_processed") == Some(Int(r.outcome.processed)) &&
      Get(d, "records_inserted") == Some(Int(r.outcome.inserted))
  {
    var p, n := r.outcome.processed, r.outcome.inserted;
    if r.table.Some? {
      assert ResultDoc(r, reason) == SuccessDoc(r.filename, [Entry("table", Str(r.table.value))], p, n);
      SuccessWithTable(r.filename, r.table.value, p, n);
    } else {
      assert ResultDoc(r, reason) == SuccessDoc(r.filename, [], p, n);
      SuccessWithoutTable(r.filename, p, n);
    }
  }

  /** The success dict, with the `table` entry or none. */
  function SuccessDoc(filename: string, table: Dict, processed: nat, inserted: nat): Dict {
    [Entry("filename", Str(filename))] + table +
    [Entry("status", Str("success")), Entry("records_processed", Int(processed)), Entry("records_inserted", Int(inserted))]
  }

  lemma SuccessWithTable(filename: string, table: string, processed: nat, inserted: nat)
    ensures var d := SuccessDoc(filename, [Entry("table", Str(table))], processed, inserted);
      Get(d, "status") == Some(Str("success")) && Get(d, "reason") == None &&
      Get(d, "table") == Some(Str(table)) &&
      Get(d, "records_processed") == Some(Int(processed)) && Get(d, "records_inserted") == Some(Int(inserted))
  {
    var d := [Entry("filename", Str(filename)), Entry("table", Str(table)), Entry("status", Str("success")),
              Entry("records_processed", Int(processed)), Entry("records_inserted", Int(inserted))];
    assert SuccessDoc(filename, [Entry("table", Str(table))], processed, inserted) == d;
    GetAt(d, 1, "table");
    GetAt(d, 2, "status");
    GetAt(d, 3, "records_processed");
    GetAt(d, 4, "records_inserted");
    ReasonAbsent(d);
  }

  lemma SuccessWithoutTable(filename: string, processed: nat, inserted: nat)
    ensures var d := SuccessDoc(filename, [], processed, inserted);
      Get(d, "status") == Some(Str("success")) && Get(d, "reason") == None && Get(d, "table") == None &&
      Get(d, "records_processed") == Some(Int(processed)) && Get(d, "records_inserted") == Some(Int(inserted))
  {
    var d := [Entry("filename", Str(filename)), Entry("status", Str("success")),
              Entry("records_processed", Int(processed)), Entry("records_inserted", Int(inserted))];
    assert SuccessDoc(filename, [], processed, inserted) == d;
    TableAbsent(d);
    GetAt(d, 1, "status");
    GetAt(d, 2, "records_processed");
    GetAt(d, 3, "records_inserted");
    ReasonAbsent(d);
  }

  lemma TableAbsent(d: Dict)
    requires forall j :: 0 <= j < |d| ==> d[j].key != "table"
    ensures Get(d, "table") == None
  {
  }

  lemma ReasonAbsent(d: Dict)
    requires forall j :: 0 <= j < |d| ==> d[j].key != "reason"
    ensures Get(d, "reason") == None
  {
  }

  /**
   * `main` calls `complete_migration` after an interrupted run too, so the
   * "error" status the interrupt recorded becomes "completed"; only its
   * message stays.
   */
  lemma InterruptThenComplete(p: Dict, now: string)
    ensures var q := MigrationCompleted(MigrationFailed(p, InterruptMessage, now), now);
      Get(q, "status") == Some(Str("completed")) && Get(q, "error_message") == Some(Str(InterruptMessage))
  {
    var f := MigrationFailed(p, InterruptMessage, now);
    MigrationFailedSpec(p, InterruptMessage, now, "error_message");
    MigrationCompletedSpec(f, now, "status");
    MigrationCompletedSpec(f, now, "error_message");
  }
}
