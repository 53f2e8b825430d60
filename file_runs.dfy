/**
 * What the loaders do with the files of a data directory: which files they
 * take and in what order, the result dict each file gets, and the summary
 * `print_summary` and `main` draw from the results.
 */
module FileRuns {
  import opened Common
  import opened Strings
  import opened Json
  import opened Sorting
  import opened BidLoader

  /** A `*.json` file of the data directory: its name, and its parsed content (`None`: opening or parsing raised). */
  datatype DataFile = DataFile(name: string, content: Option<Value>)

  /** An exception `process_file` catches and turns into an "error" result. */
  datatype FileError =
    | LoadFailed(error: LoadError)  // insert_batch rolled back and re-raised
    | ReadFailed                    // open() or json.load raised
    | NotCountable                  // complete_file's `files_completed + 1` raised

  datatype Outcome =
    | Skipped                                 // "skipped": unknown file pattern
    | InvalidFormat                           // "error": the JSON is not a list
    | Failed(error: FileError)                // "error", with the table name
    | Succeeded(processed: nat, inserted: nat) // "success": records_processed, records_inserted

  /** The dict `process_file` returns; `table` is absent from the skipped and invalid-format results. */
  datatype FileResult = FileResult(filename: string, table: Option<string>, outcome: Outcome)

  function Status(r: FileResult): (s: string)
    ensures s == "success" || s == "error" || s == "skipped"
  {
    match r.outcome
      case Skipped => "skipped"
      case Succeeded(_, _) => "success"
      case _ => "error"
  }

  /** Each status names exactly one kind of outcome. */
  lemma StatusOf(r: FileResult)
    ensures Status(r) == "success" <==> r.outcome.Succeeded?
    ensures Status(r) == "skipped" <==> r.outcome.Skipped?
    ensures Status(r) == "error" <==> r.outcome.InvalidFormat? || r.outcome.Failed?
  {
  }

  /** `r.get("records_inserted", 0)`. */
  function RecordsInserted(r: FileResult): nat {
    if r.outcome.Succeeded? then r.outcome.inserted else 0
  }

  // ------------------------------------------------------------ file selection

  const SampleFile: string := "sample_data.json"

  predicate NameBefore(a: DataFile, b: DataFile) {
    LexLe(a.name, b.name)
  }

  function WithoutSample(files: seq<DataFile>): (r: seq<DataFile>)
    ensures forall f :: f in r <==> f in files && f.name != SampleFile
  {
    if |files| == 0 then []
    else (if files[0].name == SampleFile then [] else [files[0]]) + WithoutSample(files[1..])
  }

  /** `sorted(f for f in glob("*.json") if f.name != "sample_data.json")`. */
  function SelectFiles(files: seq<DataFile>): seq<DataFile> {
    SortBy(WithoutSample(files), NameBefore)
  }

  lemma NameOrder()
    ensures TotalPreorder(NameBefore)
  {
    forall a: DataFile, b: DataFile ensures NameBefore(a, b) || NameBefore(b, a) {
      LexLeTotal(a.name, b.name);
    }
    forall a: DataFile, b: DataFile, c: DataFile | NameBefore(a, b) && NameBefore(b, c)
      ensures NameBefore(a, c)
    {
      LexLeTransitive(a.name, b.name, c.name);
    }
  }

  /**
   * The files processed are the directory's JSON files but `sample_data.json`,
   * each as often as it occurs, in ascending order of name.
   */
  lemma SelectFilesSpec(files: seq<DataFile>)
    ensures multiset(SelectFiles(files)) == multiset(WithoutSample(files))
    ensures forall f :: f in SelectFiles(files) <==> f in files && f.name != SampleFile
    ensures forall i, j :: 0 <= i < j < |SelectFiles(files)| ==>
      LexLe(SelectFiles(files)[i].name, SelectFiles(files)[j].name)
  {
    NameOrder();
    SortBySorted(WithoutSample(files), NameBefore);
    var s := SelectFiles(files);
    forall f ensures f in s <==> f in WithoutSample(files) {
      assert f in s <==> f in multiset(s);
      assert f in WithoutSample(files) <==> f in multiset(WithoutSample(files));
    }
  }

  /** The message of the `FileNotFoundError` `migrate_all_files` raises for the default directory. */
  const MissingDirMessage: string := "Data directory data not found"

  /**
   * How many of `count` files are processed when a `KeyboardInterrupt`
   * arrives before file `interruptAt` (0-based), if one does.
   */
  function Processed(count: nat, interruptAt: Option<nat>): (n: nat)
    ensures n <= count
    ensures n < count <==> interruptAt.Some? && interruptAt.value < count
    ensures n < count ==> n == interruptAt.value
  {
    if interruptAt.Some? && interruptAt.value < count then interruptAt.value else count
  }

  // ------------------------------------------------- loading without a writer

  /** What `process_file` does to one file: its result and the load it ran. */
  datatype FileLoad = FileLoad(result: FileResult, run: Run)

  /**
   * `process_file(f)` of the dashboard and the plain loader, which load with
   * batch size `b` and report to no stats writer: an unknown prefix is
   * skipped, a file that cannot be read or parsed and a load that raised are
   * errors with the table name, a JSON value that is not a list is an error
   * without one, and anything else succeeds.
   */
  function LoadFile(l: Loader, schema: map<string, seq<string>>, accepts: Commit -> bool, b: int, f: DataFile): FileLoad
    requires !l.Cli?
  {
    match TableForFilename(f.name)
      case None => FileLoad(FileResult(f.name, None, Skipped), NoRun)
      case Some(t) =>
        if f.content.None? then FileLoad(FileResult(f.name, Some(t), Failed(ReadFailed)), NoRun)
        else if !f.content.value.List? then FileLoad(FileResult(f.name, None, InvalidFormat), NoRun)
        else
          var items := f.content.value.items;
          var run := Load(l, t, TableColumns(schema, t), items, b, accepts, true);
          if run.failure.Some? then FileLoad(FileResult(f.name, Some(t), Failed(LoadFailed(run.failure.value))), run)
          else FileLoad(FileResult(f.name, Some(t), Succeeded(|items|, run.total)), run)
  }

  /**
   * The result of `process_file`: which outcome each kind of file gets, what
   * a success reports (every record processed, all of them inserted unless
   * the table has no columns or the batch size is negative), and that a
   * failed load is reported with the error it raised.
   */
  lemma {:induction false} LoadFileResult(l: Loader, schema: map<string, seq<string>>, accepts: Commit -> bool, b: int,
                                          f: DataFile)
    requires !l.Cli?
    ensures var fl := LoadFile(l, schema, accepts, b, f);
      var o := fl.result.outcome;
      fl.result.filename == f.name &&
      (o.Skipped? <==> TableForFilename(f.name).None?) &&
      (fl.result.table.None? <==> o.Skipped? || o.InvalidFormat?) &&
      (fl.result.table.Some? ==> fl.result.table == TableForFilename(f.name)) &&
      (o == Failed(ReadFailed) <==> TableForFilename(f.name).Some? && f.content.None?) &&
      (o.InvalidFormat? <==> TableForFilename(f.name).Some? && f.content.Some? && !f.content.value.List?) &&
      (o.Succeeded? ==>
        f.content.Some? && f.content.value.List? && o.processed == |f.content.value.items| &&
        o.inserted == (if |TableColumns(schema, fl.result.table.value)| == 0 || b < 0 then 0 else o.processed)) &&
      (fl.run.failure.Some? <==> o.Failed? && o.error.LoadFailed?) &&
      (fl.run.failure.Some? ==> o.error.error == fl.run.failure.value) &&
      !(o.Failed? && o.error.NotCountable?)
  {
    var fl := LoadFile(l, schema, accepts, b, f);
    if TableForFilename(f.name).Some? && f.content.Some? && f.content.value.List? {
      var t := TableForFilename(f.name).value;
      var items := f.content.value.items;
      var cols := TableColumns(schema, t);
      LoadSpec(l, t, cols, items, b, accepts, true);
      if |items| > 0 && |cols| > 0 && b > 0 && fl.run.failure.None? {
        LoadCompleteCounts(l, t, cols, items, b, accepts, true);
      }
    }
  }

  // ------------------------------------------------------------------ summary

  /** `[r for r in results if r["status"] == status]`. */
  function WithStatus(rs: seq<FileResult>, status: string): (g: seq<FileResult>)
    ensures |g| <= |rs|
    ensures forall r :: r in g <==> r in rs && Status(r) == status
  {
    if |rs| == 0 then []
    else (if Status(rs[0]) == status then [rs[0]] else []) + WithStatus(rs[1..], status)
  }

  /** `sum(r.get("records_inserted", 0) for r in successful)`. */
  function TotalRecords(rs: seq<FileResult>): nat {
    SumInserted(WithStatus(rs, "success"))
  }

  function SumInserted(rs: seq<FileResult>): nat {
    if |rs| == 0 then 0 else RecordsInserted(rs[0]) + SumInserted(rs[1..])
  }

  /** The overall status `main` saves: "completed" unless a file failed. */
  function FinalStatus(rs: seq<FileResult>): string {
    if |WithStatus(rs, "error")| == 0 then "completed" else "completed_with_errors"
  }

  /** The counts `print_summary` prints. */
  datatype Summary = Summary(total: nat, successful: nat, failed: nat, skipped: nat, totalRecords: nat)

  function Summarize(rs: seq<FileResult>): Summary {
    Summary(|rs|, |WithStatus(rs, "success")|, |WithStatus(rs, "error")|, |WithStatus(rs, "skipped")|,
            TotalRecords(rs))
  }

  /** Each result falls in exactly one of the three groups. */
  lemma {:induction false} GroupsPartition(rs: seq<FileResult>)
    ensures |WithStatus(rs, "success")| + |WithStatus(rs, "error")| + |WithStatus(rs, "skipped")| == |rs|
  {
    if |rs| > 0 {
      GroupsPartition(rs[1..]);
    }
  }

  /** The records total counts every success, and nothing else. */
  lemma {:induction false} TotalRecordsAppend(rs: seq<FileResult>, r: FileResult)
    ensures TotalRecords(rs + [r]) == TotalRecords(rs) + (if Status(r) == "success" then r.outcome.inserted else 0)
  {
    WithStatusAppend(rs, r, "success");
    if Status(r) == "success" {
      SumInsertedAppend(WithStatus(rs, "success"), r);
    } else {
      assert WithStatus(rs + [r], "success") == WithStatus(rs, "success") + [];
      assert WithStatus(rs, "success") + [] == WithStatus(rs, "success");
    }
  }

  lemma {:induction false} WithStatusAppend(rs: seq<FileResult>, r: FileResult, status: string)
    ensures WithStatus(rs + [r], status) == WithStatus(rs, status) + (if Status(r) == status then [r] else [])
    decreases |rs|
  {
    if |rs| == 0 {
      assert rs + [r] == [r];
    } else {
      var head := if Status(rs[0]) == status then [rs[0]] else [];
      var last := if Status(r) == status then [r] else [];
      assert (rs + [r])[0] == rs[0];
      assert (rs + [r])[1..] == rs[1..] + [r];
      WithStatusAppend(rs[1..], r, status);
      assert WithStatus(rs + [r], status) == head + (WithStatus(rs[1..], status) + last);
      ConcatAssoc(head, WithStatus(rs[1..], status), last);
    }
  }

  /** 1 for a success, 0 otherwise. */
  function SuccessCount(r: FileResult): nat {
    if r.outcome.Succeeded? then 1 else 0
  }

  /** The number of successes, counted from the last result back. */
  function Successes(rs: seq<FileResult>): nat
    decreases |rs|
  {
    if |rs| == 0 then 0 else Successes(rs[..|rs| - 1]) + SuccessCount(rs[|rs| - 1])
  }

  /** `Successes` counts the results whose status is "success". */
  lemma {:induction false} SuccessesSpec(rs: seq<FileResult>)
    ensures Successes(rs) == |WithStatus(rs, "success")|
    decreases |rs|
  {
    if |rs| > 0 {
      var init := rs[..|rs| - 1];
      SuccessesSpec(init);
      assert init + [rs[|rs| - 1]] == rs;
      WithStatusAppend(init, rs[|rs| - 1], "success");
      StatusOf(rs[|rs| - 1]);
    }
  }

  lemma {:induction false} SumInsertedAppend(rs: seq<FileResult>, r: FileResult)
    ensures SumInserted(rs + [r]) == SumInserted(rs) + RecordsInserted(r)
    decreases |rs|
  {
    if |rs| == 0 {
      assert rs + [r] == [r];
    } else {
      assert (rs + [r])[1..] == rs[1..] + [r];
      SumInsertedAppend(rs[1..], r);
    }
  }

  /** The summary of no results is all zeros; one more result moves exactly its own counters. */
  lemma SummarizeStep(rs: seq<FileResult>, r: FileResult)
    ensures Summarize([]) == Summary(0, 0, 0, 0, 0)
    ensures var s, t := Summarize(rs), Summarize(rs + [r]);
      t.total == s.total + 1 &&
      t.successful == s.successful + (if Status(r) == "success" then 1 else 0) &&
      t.failed == s.failed + (if Status(r) == "error" then 1 else 0) &&
      t.skipped == s.skipped + (if Status(r) == "skipped" then 1 else 0) &&
      t.totalRecords == s.totalRecords + (if Status(r) == "success" then r.outcome.inserted else 0)
  {
    WithStatusAppend(rs, r, "success");
    WithStatusAppend(rs, r, "error");
    WithStatusAppend(rs, r, "skipped");
    TotalRecordsAppend(rs, r);
  }

  /** "completed" exactly when no result is an error. */
  lemma FinalStatusSpec(rs: seq<FileResult>)
    ensures FinalStatus(rs) == "completed" <==> forall r :: r in rs ==> Status(r) != "error"
    ensures FinalStatus(rs) != "completed" ==> FinalStatus(rs) == "completed_with_errors"
  {
    var g := WithStatus(rs, "error");
    if |g| > 0 {
      assert g[0] in g;
    }
  }
}
