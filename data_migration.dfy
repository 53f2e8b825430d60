/**
 * The plain loader (`DataMigrator` of data_migration.py): the batch loader of
 * `BidLoader` with unquoted columns, no timestamp columns and no batch stats,
 * run over the files of the data directory in name order.
 */
module PlainMigration {
  import opened Common
  import opened Json
  import opened Strings
  import opened BidLoader
  import opened FileRuns

  /** `insert_batch`'s default batch size, the one `process_file` uses. */
  const DefaultBatchSize: int := 1000

  /** What the loop of `migrate_all_files` has done after some files: their results and the batches committed. */
  datatype Loads = Loads(results: seq<FileResult>, commits: seq<Commit>)

  /** The files `fs` processed in order. */
  function LoadFiles(schema: map<string, seq<string>>, accepts: Commit -> bool, fs: seq<DataFile>): Loads
    decreases |fs|
  {
    if |fs| == 0 then Loads([], [])
    else
      var m := LoadFiles(schema, accepts, fs[..|fs| - 1]);
      var fl := LoadFile(Plain, schema, accepts, DefaultBatchSize, fs[|fs| - 1]);
      Loads(m.results + [fl.result], m.commits + fl.run.commits)
  }

  lemma LoadFilesStep(schema: map<string, seq<string>>, accepts: Commit -> bool, fs: seq<DataFile>, i: nat)
    requires i < |fs|
    ensures var m := LoadFiles(schema, accepts, fs[..i]);
      var fl := LoadFile(Plain, schema, accepts, DefaultBatchSize, fs[i]);
      LoadFiles(schema, accepts, fs[..i + 1]) == Loads(m.results + [fl.result], m.commits + fl.run.commits)
  {
    assert fs[..i + 1][..i] == fs[..i];
  }

  /**
   * `migrate_all_files()` for a directory that holds `files` (none if it does
   * not exist), with a `KeyboardInterrupt` before file `interruptAt` of the
   * selection, if one comes: the results and what reached the database.
   */
  function MigrateSpec(schema: map<string, seq<string>>, accepts: Commit -> bool, dirExists: bool,
                       files: seq<DataFile>, interruptAt: Option<nat>): (Result<seq<FileResult>, string>, seq<Commit>)
  {
    if !dirExists then (Err(MissingDirMessage), [])
    else
      var sel := SelectFiles(files);
      var m := LoadFiles(schema, accepts, sel[..Processed(|sel|, interruptAt)]);
      (Ok(m.results), m.commits)
  }

  /** One result per file, in order: the result `process_file` gives that file. */
  lemma {:induction false} LoadFilesResults(schema: map<string, seq<string>>, accepts: Commit -> bool, fs: seq<DataFile>)
    ensures var m := LoadFiles(schema, accepts, fs);
      |m.results| == |fs| &&
      forall i :: 0 <= i < |fs| ==>
        m.results[i] == LoadFile(Plain, schema, accepts, DefaultBatchSize, fs[i]).result &&
        m.results[i].filename == fs[i].name
    decreases |fs|
  {
    if |fs| > 0 {
      var init := fs[..|fs| - 1];
      LoadFilesResults(schema, accepts, init);
      forall i | 0 <= i < |fs| ensures LoadFiles(schema, accepts, fs).results[i].filename == fs[i].name {
        LoadFileResult(Plain, schema, accepts, DefaultBatchSize, fs[i]);
      }
    }
  }

  /**
   * The whole migration: a missing directory is an error and loads nothing;
   * otherwise every file but `sample_data.json` is processed, in ascending
   * name order, each exactly as `process_file` does it, up to the interrupt.
   */
  lemma MigrateResults(schema: map<string, seq<string>>, accepts: Commit -> bool, dirExists: bool,
                       files: seq<DataFile>, interruptAt: Option<nat>)
    ensures var (res, commits) := MigrateSpec(schema, accepts, dirExists, files, interruptAt);
      (res.Err? <==> !dirExists) &&
      (res.Err? ==> res.error == MissingDirMessage && commits == []) &&
      (res.Ok? ==>
        var sel := SelectFiles(files);
        |res.value| == Processed(|sel|, interruptAt) &&
        (|res.value| < |sel| <==> interruptAt.Some? && interruptAt.value < |sel|) &&
        (forall i :: 0 <= i < |res.value| ==>
          res.value[i] == LoadFile(Plain, schema, accepts, DefaultBatchSize, sel[i]).result &&
          res.value[i].filename == sel[i].name && sel[i].name != SampleFile) &&
        (forall i, j :: 0 <= i < j < |res.value| ==> LexLe(res.value[i].filename, res.value[j].filename)))
  {
    if dirExists {
      var sel := SelectFiles(files);
      var n := Processed(|sel|, interruptAt);
      LoadFilesResults(schema, accepts, sel[..n]);
      SelectFilesSpec(files);
      forall i | 0 <= i < n ensures sel[i].name != SampleFile {
        assert sel[i] in sel;
      }
    }
  }

  class PlainMigrator {
    /** The columns `information_schema` lists for each table the database has. */
    const schema: map<string, seq<string>>
    /** The database's verdict on the `executemany` and `commit` of one batch. */
    const accepts: Commit -> bool
    /** The batches committed so far, in order. */
    var db: seq<Commit>

    constructor (schema: map<string, seq<string>>, accepts: Commit -> bool)
      ensures this.schema == schema && this.accepts == accepts && db == []
    {
      this.schema := schema;
      this.accepts := accepts;
      db := [];
    }

    /**
     * `insert_batch(table, records, b)`: the run `Load` describes; the
     * database gets its commits, also when it raised.
     */
    method InsertBatch(table: string, records: seq<Value>, b: int) returns (run: Run)
      modifies this
      ensures run == Load(Plain, table, TableColumns(schema, table), records, b, accepts, true)
      ensures db == old(db) + run.commits
    {
      if |records| == 0 {
        return NoRun;
      }
      var cols := TableColumns(schema, table);
      run := RunBatches(Plain, table, cols, records, b, accepts);
      db := db + run.commits;
    }

    /** `process_file(f)`: the result `LoadFile` describes, with the default batch size. */
    method ProcessFile(f: DataFile) returns (result: FileResult)
      modifies this
      ensures var fl := LoadFile(Plain, schema, accepts, DefaultBatchSize, f);
        result == fl.result && db == old(db) + fl.run.commits
    {
      var table := TableForFilename(f.name);
      if table.None? {
        return FileResult(f.name, None, Skipped);
      }
      var t := table.value;
      if f.content.None? {
        return FileResult(f.name, Some(t), Failed(ReadFailed));
      }
      if !f.content.value.List? {
        return FileResult(f.name, None, InvalidFormat);
      }
      var items := f.content.value.items;
      var run := InsertBatch(t, items, DefaultBatchSize);
      if run.failure.Some? {
        return FileResult(f.name, Some(t), Failed(LoadFailed(run.failure.value)));
      }
      result := FileResult(f.name, Some(t), Succeeded(|items|, run.total));
    }

    /**
     * `migrate_all_files()`: the missing directory's error, nothing for an
     * empty selection, and otherwise the selection processed in order up to
     * the interrupt.
     */
    method MigrateAllFiles(dirExists: bool, files: seq<DataFile>, interruptAt: Option<nat>)
      returns (r: Result<seq<FileResult>, string>)
      modifies this
      ensures var (res, commits) := MigrateSpec(schema, accepts, dirExists, files, interruptAt);
        r == res && db == old(db) + commits
    {
      if !dirExists {
        return Err(MissingDirMessage);
      }
      var sel := SelectFiles(files);
      if |sel| == 0 {
        return Ok([]);
      }
      var n := Processed(|sel|, interruptAt);
      var results := ProcessAll(sel[..n]);
      r := Ok(results);
    }

    /** The loop of `migrate_all_files` over the files it gets to. */
    method ProcessAll(fs: seq<DataFile>) returns (results: seq<FileResult>)
      modifies this
      ensures var m := LoadFiles(schema, accepts, fs);
        results == m.results && db == old(db) + m.commits
    {
      results := [];
      var i := 0;
      while i < |fs|
        invariant i <= |fs|
        invariant var m := LoadFiles(schema, accepts, fs[..i]);
          results == m.results && db == old(db) + m.commits
        decreases |fs| - i
      {
        ghost var m := LoadFiles(schema, accepts, fs[..i]);
        ghost var fl := LoadFile(Plain, schema, accepts, DefaultBatchSize, fs[i]);
        var result := ProcessFile(fs[i]);
        LoadFilesStep(schema, accepts, fs, i);
        ConcatAssoc(old(db), m.commits, fl.run.commits);
        results := results + [result];
        i := i + 1;
      }
      assert fs[..i] == fs;
    }
  }
}
