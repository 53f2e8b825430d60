# Cloud PostgreSQL performance test: a Dafny model

The repository loads public bid-announcement data, held in JSON files, into
PostgreSQL tables. It records how each batch of the load performed. It can
also run a simulated multi-cloud insert benchmark, compare test runs, and
summarise the token usage found in session logs. This project models the
parts of it that can be checked, and proves properties about them:

- **The three batch loaders.** These are the command-line `CLIDataMigrator` (`migrate_cli.py`), the dashboard
  `StreamlitDataMigrator` (`services/migration/migrator.py`) and the plain
  `DataMigrator` (`data_migration.py`). They share one model (`BidLoader`), with a `Loader` tag for the places
  where the three copies differ:
  - whether `""` becomes NULL;
  - whether column names are quoted;
  - whether the `createdAt`/`updatedAt` columns are added;
  - how batch stats are kept.

  Each loader does the following:
  - maps a file name to a table;
  - prepares each record for the table's columns;
  - cuts the records into batches;
  - gives `opn_std_scsbid_info` rows a composite `id`;
  - builds the INSERT text;
  - commits batch by batch, keeping a running `cumulative_records`.

  The database is an oracle, `accepts: Commit -> bool`, which says whether one batch's `executemany` plus
  `commit` succeeds. The columns the database reports are a map from table to columns. The loaders'
  file handling (`process_file`, `migrate_all_files`, the summary) is in `FileRuns`, `CliMigration`,
  `DashboardMigration` and `PlainMigration`.
- **The stats writer** (`StatsWriting.StatsWriter`) holds its three JSON documents as fields (progress, stats
  and results). Each is `None` when its file does not exist. Each operation sets some keys and leaves the rest
  alone.
- **The run index** (`TestRuns.TestRunManager`) is a sequence of run dicts. It supports id generation,
  append, first-match update, filters and "most recent N" ordering.
- **The benchmark driver** (`DataProcessing.DataProcessor`) does the chunking, produces per-cloud result lists
  in cloud order, groups the results and summarises them. Its database backend is `DbManager`'s
  `DatabaseManager`, whose mock draws are parameters.
- **Pure helpers:**
  - the SQL text built from the schema (`DbManager`);
  - the `${VAR:-default}` expansion of the database configuration (`ConfigLoading`);
  - the configuration validators and the report ranking (`Helpers`);
  - run comparison (`Comparison`);
  - the counters of the session-log monitor (`SessionMonitor`).

JSON values are `Json.Value`. A dict is an association list kept in insertion order, found by first match,
with distinct keys. Exceptions become `Result`/`Option` error values. The parsed content of a file, the
clock readings, the environment, `json.loads`/`json.dumps`, numpy's `percentile` and the database's verdicts
are parameters.

An integer is unbounded, as in Python. A float is `Json.Float(repr, real)`, that is, Python's text for it
together with the real number it stands for.

## Model

| member | source | states |
|---|---|---|
| BidLoader.TableForFilenameSpec | migrate_cli.py:62-76 | Each of the five prefixes maps to its own fixed table; a name with none of them yields None. The same mapping is at services/migration/migrator.py:44-57 and data_migration.py:52-66. |
| BidLoader.TableColumns | migrate_cli.py:78-95 | The loaders' column list never contains `createdAt`, `updatedAt` or `id`, and contains every other column of a known table; an unknown table has no columns. |
| BidLoader.PrepareDictRecord | migrate_cli.py:97-111 | A prepared dict record has exactly the table's columns as keys. An absent or None value is NULL. A non-empty string is kept. `""` is kept by the command-line and plain loaders and becomes NULL in the dashboard loader (services/migration/migrator.py:92). Any other value becomes `str(v)`. |
| BidLoader.PrepareScalarRecordFails | migrate_cli.py:101-103 | A record that is not a dict, list or string makes `column in record` raise, so it cannot be prepared. |
| BidLoader.PrepareRecordData | migrate_cli.py:97-111 | The column loop succeeds exactly for a preparable record, and gives the prepared record. |
| BidLoader.PrepareAll | migrate_cli.py:133-137 | A batch prepares exactly when each of its records does; it then has one prepared row per record, in order. |
| BidLoader.PrepareBatch | migrate_cli.py:133-137 | The `batch_data` loop computes `PrepareAll`. |
| BidLoader.CompositeIdDeterminesPosition | migrate_cli.py:151-153 | Two composite ids `{bidNtceNo}_{bidNtceOrd}_{pos}` are equal only if their positions are equal. |
| BidLoader.AssignIds | migrate_cli.py:151-153 | The `data['id'] = ...` loop gives each row of a batch at offset `i` the id for 1-based position `i+j+1`. |
| BidLoader.ColumnsTextIsTargets | migrate_cli.py:141-146 | The column list text is the comma-joined (quoted, for two loaders) names of the INSERT targets. |
| BidLoader.PlaceholdersTextIsTargets | migrate_cli.py:141-146 | The VALUES text is the comma-joined value expressions of the same targets, position for position. |
| BidLoader.TimestampTexts | migrate_cli.py:144-146 | The quoted loaders add `"createdAt", "updatedAt"` with two `CURRENT_TIMESTAMP`s; the plain loader adds nothing (data_migration.py:130-133). |
| BidLoader.IdFirst | migrate_cli.py:155-156 | Putting `id` in front adds `"id", ` (`id, ` unquoted) to the columns and `%(id)s, ` to the values. |
| BidLoader.InsertSqlMatchesTargets | migrate_cli.py:139-157 | The INSERT text is the rendering of its targets, in order: `id` first for the special table, then the schema's columns with their named parameters, then the timestamp columns for the quoted loaders. Each column is matched by the value at the same position. |
| BidLoader.CommittedStep | migrate_cli.py:160-163 | One more accepted batch extends the committed prefix by one commit and adds its rows to `total_inserted`. |
| BidLoader.RunFromCommits | migrate_cli.py:128-181 | From a committed prefix, the loop commits later batches in order. When nothing fails, every batch is committed with its stat. |
| BidLoader.RunFromStops | migrate_cli.py:198-201 | The loop stops exactly at the first batch that cannot be prepared, that the database rejects, or (command-line loader) whose stat cannot be appended. It names that batch, and the batches before it stay committed. |
| BidLoader.LoadSpec | migrate_cli.py:113-121 | No records or no columns: 0 and nothing sent. Batch size 0: `range()`'s error. Otherwise: the batch loop. |
| BidLoader.LoadCompleteCounts | migrate_cli.py:128-132 | When every batch succeeds: `ceil(n/b)` batches numbered 1..k, each of `b` records except the last, which has `n-b(k-1)`; `total_inserted` is `n`. |
| BidLoader.CommittedCumulative | migrate_cli.py:163-179 | A batch's `cumulative_records` is the sum of `records_count` up to and including it, so it strictly increases. `total_inserted` is the sum of all of them. |
| BidLoader.CumulativeRecords | migrate_cli.py:163-203 | The cumulative-record facts hold for every load, whether it finished or stopped. |
| BidLoader.LoadCommitted | migrate_cli.py:125-201 | Whatever a load committed is a prefix of its batches, committed in order. |
| BidLoader.CommittedRowIsFileRow | migrate_cli.py:128-137 | Row `i` of committed batch `k` is the prepared record at file position `k*b+i`. |
| BidLoader.CommittedRowId | migrate_cli.py:151-157 | In the special table, a committed row's `id` is the composite id of its record at 1-based position `k*b+i+1`. |
| BidLoader.CompositeIdsDistinct | migrate_cli.py:151-153 | Committed rows at different file positions never share an id. The same holds at services/migration/migrator.py:152-154 and data_migration.py:136-139. |
| BidLoader.RowsBindEveryParameter | migrate_cli.py:141-160 | Every committed row binds each named parameter its INSERT mentions. |
| BidLoader.BatchRows | migrate_cli.py:130-157 | One loop pass slices batch `k` at offset `k*b`, prepares it and adds the ids: the planned rows of batch `k`. |
| BidLoader.SendBatch | migrate_cli.py:128-163 | One pass either commits batch `k`, growing `total_inserted` and the stats, or stops the run with that batch's error. |
| BidLoader.RunBatches | data_migration.py:104-159 | The dashboard and plain `insert_batch` loops produce exactly the run `Load` describes. |
| BidLoader.RunJob | data_migration.py:120-148 | The batch loop with a positive size computes `RunFrom` from the empty run. |
| CliMigration.AppendedSpec | services/migration/stats_writer.py:99-105 | Appending to a stats document that can take it leaves a list under `batches` that is one longer. |
| CliMigration.AppendStatsSpec | migrate_cli.py:181-184 | The stats are appended in order after the existing batches, and no other key changes. |
| CliMigration.ProgressAfterSpec | migrate_cli.py:186-190 | After one or more batches, the progress shows the last batch's number and running total plus the update time. Every other key reads as before. |
| CliMigration.CliLoadFacts | migrate_cli.py:113-203 | A command-line load's run is reportable to the stats writer it started with, as below. A finished load inserted every record, except with no records, no columns or a negative batch size, where it inserted none. |
| CliMigration.CliLoadReportable | migrate_cli.py:113-203 | A stats document that cannot append receives no stat; one that can receives all of them. The last stat is numbered by the batch count and carries the run's total. |
| CliMigration.CliLoadWritten | migrate_cli.py:181-184 | A command-line load writes its stats exactly when the stats document can take them. |
| CliMigration.CliLoadLastStat | migrate_cli.py:171-190 | The last stat's `batch_number` is the number of batches sent, and its `cumulative_records` is the load's total. |
| CliMigration.WriterAfterRun | migrate_cli.py:181-190 | After a load, the stats document has each committed batch's stat after the batches it had. The progress names the last batch and the running total. A load that wrote no stat leaves both documents alone. |
| CliMigration.ProcessKnown | migrate_cli.py:213-250 | For a known table, the result names the file and is never skipped. It lacks a table exactly when the content is not a list; otherwise it carries the table. |
| CliMigration.ProcessLoaded | migrate_cli.py:228-250 | After the load, the result is a success or an error carrying the table. The stats document is the one the run's stats leave. |
| CliMigration.ProcessResultSpec | migrate_cli.py:205-250 | `process_file`'s result names the file. An unknown name is "skipped" and content that is not a list is "invalid data format", both without a table. Every other result carries the mapped table. |
| CliMigration.ProcessLoadSpec | migrate_cli.py:227-250 | A success read a list from a known table's file and loaded every batch. Every record is processed and, unless there are no columns, inserted. A stopped load becomes an error carrying its reason. A skipped file changes nothing. |
| CliMigration.ProcessProgressGet | migrate_cli.py:216-239 | A skipped file leaves the progress alone. Any other file becomes `current_file`. A success then clears it and counts one more completed file. |
| CliMigration.ProcessStatsSpec | migrate_cli.py:228 | `process_file` appends exactly the stats of the batches it wrote, and leaves every other stats key as it was. |
| CliMigration.RunFilesNames | migrate_cli.py:271-276 | The loop gives one result per file, in file order, each naming its file. |
| CliMigration.RunFilesProgressKeeps | migrate_cli.py:273-294 | Processing files touches no progress key except the five `process_file` sets. |
| CliMigration.ProcessCompletedCases | migrate_cli.py:238-239 | `files_completed` grows by one exactly when the file succeeds. |
| CliMigration.RunFilesCompleted | migrate_cli.py:273-294 | Starting from 0, `files_completed` ends at the number of successes. |
| CliMigration.RunFilesStats | migrate_cli.py:273-294 | The stats document lists exactly the batch stats the loader kept, in order, after the batches it had; other keys are untouched. |
| CliMigration.MigrateResults | migrate_cli.py:252-296 | It fails only for a missing directory, and then changes nothing. Otherwise it gives one result per file reached, in the sorted order of the selection; that is all of it unless interrupted. |
| CliMigration.MigrateProgress | migrate_cli.py:262-287 | With files found, the progress ends "running", or "error" with "Interrupted by user". It counts the selection and the successes. |
| CliMigration.StartedRunProgress | migrate_cli.py:269-294 | After `start_migration(total)` the loop keeps "running" and the file count, and counts the successes. |
| CliMigration.MigrateStats | migrate_cli.py:268-294 | After a migration that found files, the stats document holds the loader's kept stats, in order, beside the metadata `start_migration` wrote. |
| CliMigration.SavedResultsSpec | migrate_cli.py:397-417 | The saved results are "completed" exactly when no file failed, otherwise "completed_with_errors". They carry the file count, success and failure counts, the records inserted by successes, and the completion time. |
| CliMigration.SavedFileResultsSpec | migrate_cli.py:403-416 | The saved `file_results` is a list with one entry per file result, in order, each the dict `process_file` returned for it. |
| CliMigration.ResultDocSpec | migrate_cli.py:204-249 | A result dict names its file and its status. A success or a raised error names its table; a success carries `records_processed` and `records_inserted` and no reason. A skip says "unknown file pattern", a non-list file "invalid data format", and a raised error the exception's text. |
| CliMigration.InterruptThenComplete | migrate_cli.py:383-417 | An interrupted run still reaches `complete_migration`, which turns "error" back into "completed"; only `error_message` survives. |
| CliMigration.CliMigrator.constructor | migrate_cli.py:37-44 | A new migrator has no batch stats and a writer initialised over the existing documents. |
| CliMigration.CliMigrator.InsertBatch | migrate_cli.py:113-203 | The run is `Load`'s. The database receives its commits and `batch_performance_stats` its stats. The writer receives one stat and one progress update per committed batch. |
| CliMigration.CliMigrator.SendBatches | migrate_cli.py:125-196 | The loop over a non-empty load with a positive size computes `RunFrom` and updates every store to match. |
| CliMigration.CliMigrator.CliBatch | migrate_cli.py:128-193 | One pass: batch `k` committed, kept and written, with the progress updated; or the error that stops the run. |
| CliMigration.CliMigrator.KeepBatch | migrate_cli.py:163-190 | After a commit, the stat is kept and written and the progress updated. A stats document that cannot take the stat stops the run after the commit. |
| CliMigration.CliMigrator.RecordBatch | migrate_cli.py:183-190 | `add_batch_stat` then `update_progress`. The append fails exactly when the stats document could not take one from the start. |
| CliMigration.CliMigrator.ProcessFile | migrate_cli.py:205-250 | Outcome and new state as `ProcessSpec` gives them. |
| CliMigration.CliMigrator.MigrateAllFiles | migrate_cli.py:252-296 | A missing directory raises. An empty selection gives nothing. Otherwise `start_migration`, then the sorted selection up to the interrupt, which `error_migration` records. |
| CliMigration.CliMigrator.ProcessAll | migrate_cli.py:271-294 | The file loop computes `RunFiles` over the files it reaches. |
| CliMigration.CliMigrator.RunMigration | migrate_cli.py:361-429 | `main`: after the migration, `complete_migration` saves the summary and the per-file results; if the migration raised, `error_migration` records its message. |
| DashboardMigration.EffectiveBatchSize | services/migration/migrator.py:106-108 | The given batch size is used, else the migrator's own. |
| DashboardMigration.TableStatsSpec | services/migration/migrator.py:331-344 | Each table's entry counts exactly that table's batches and the sum of their records. A table has an entry exactly when it has a stat, and never two. |
| DashboardMigration.TableStatsTotals | services/migration/migrator.py:331-344 | The per-table batch counts sum to `total_batches`, and the per-table record sums to `total_records`. |
| DashboardMigration.SummaryOfSpec | services/migration/migrator.py:319-358 | No stats gives `{}`. Otherwise `total_batches` is the number of stats and `total_records` their records, and the table entries split both totals among the tables. |
| DashboardMigration.DashboardMigrator.constructor | services/migration/migrator.py:17-23 | A new migrator has its batch size and no batch stats. |
| DashboardMigration.DashboardMigrator.InsertBatch | services/migration/migrator.py:101-240 | This is `Load` with the migrator's batch size when none is given. The database receives the commits and `batch_performance_stats` the stats, also when the load raises. |
| DashboardMigration.DashboardMigrator.ProcessFile | services/migration/migrator.py:242-291 | "skipped" for an unknown prefix; "invalid data format" for non-list content; an error with the table for a raise; otherwise a success. |
| DashboardMigration.DashboardMigrator.GetPerformanceSummary | services/migration/migrator.py:319-358 | The one-pass grouping loop computes `SummaryOf` of the kept stats. |
| PlainMigration.LoadFilesResults | data_migration.py:216-240 | One result per file, in order: the result `process_file` gives that file. |
| PlainMigration.MigrateResults | data_migration.py:200-240 | A missing directory is an error and loads nothing. Otherwise every file except `sample_data.json` is processed, in ascending name order, as `process_file` does it, up to a KeyboardInterrupt. |
| PlainMigration.PlainMigrator.constructor | data_migration.py:32-34 | A new migrator over a database that has received nothing. |
| PlainMigration.PlainMigrator.InsertBatch | data_migration.py:104-159 | The run is `Load`'s, with unquoted columns and no timestamps; the database receives its commits, also when it raises. |
| PlainMigration.PlainMigrator.ProcessFile | data_migration.py:161-198 | The result `LoadFile` describes, with batch size 1000. |
| PlainMigration.PlainMigrator.MigrateAllFiles | data_migration.py:200-240 | The missing directory's error; nothing for an empty selection; otherwise the sorted selection up to the interrupt. |
| PlainMigration.PlainMigrator.ProcessAll | data_migration.py:216-238 | The loop appends each file's result, in order. |
| FileRuns.Status | data_migration.py:244-246 | Every result's status is "success", "error" or "skipped". |
| FileRuns.StatusOf | data_migration.py:161-198 | Each status names exactly one kind of outcome. |
| FileRuns.WithoutSample | data_migration.py:208 | Keeps exactly the files that are not `sample_data.json`. |
| FileRuns.SelectFilesSpec | migrate_cli.py:260-273 | The files processed are the directory's JSON files except `sample_data.json`, each as often as it occurs, in ascending name order. |
| FileRuns.Processed | migrate_cli.py:284-287 | An interrupt before file `i < n` stops after `i` files; without one, all `n` are processed. |
| FileRuns.LoadFileResult | data_migration.py:161-198 | Which outcome each kind of file gets. A success processed every record and inserted all of them, unless there are no columns or the batch size is negative. A failed load reports the error it raised. This covers services/migration/migrator.py:242-291 too. |
| FileRuns.WithStatus | data_migration.py:244-246 | The group of a status holds exactly the results with that status. |
| FileRuns.GroupsPartition | data_migration.py:244-246 | Each result is in exactly one of the success, error and skipped groups. |
| FileRuns.TotalRecordsAppend | data_migration.py:248 | The records total counts the `records_inserted` of every success and nothing else. |
| FileRuns.SuccessesSpec | migrate_cli.py:398 | `Successes` counts the results whose status is "success". |
| FileRuns.SummarizeStep | migrate_cli.py:298-313 | With no results the summary is all zeros; one more result changes only its own counters. |
| FileRuns.FinalStatusSpec | migrate_cli.py:405 | "completed" exactly when no result is an error, otherwise "completed_with_errors". |
| StatsWriting.InitDoc | services/migration/stats_writer.py:32-50 | A missing document gets its default; an existing one is kept. |
| StatsWriting.WithMetadataSpec | services/migration/stats_writer.py:81-86 | `cloud_provider` and `instance_type` are added only when set; other keys are unchanged. |
| StatsWriting.ProgressUpdatedSpec | services/migration/stats_writer.py:66-71 | `update_progress` overwrites exactly the given keys and `last_update`. Every other key reads as before, and existing keys keep their places. |
| StatsWriting.StartProgressSpec | services/migration/stats_writer.py:73-91 | `start_migration` sets "running" and zeroes `current_batch`, `files_completed` and `total_records_processed`. It records `total_files` and the start time, adds the metadata that is set, and keeps no other key. |
| StatsWriting.StartStatsSpec | services/migration/stats_writer.py:92-97 | The stats document becomes an empty `batches` list plus the metadata that is set. |
| StatsWriting.MetadataKeepsKeys | services/migration/stats_writer.py:81-86 | Adding the metadata keeps the existing keys in place. |
| StatsWriting.BatchAppendedSpec | services/migration/stats_writer.py:99-105 | The append fails exactly when `batches` is not a list. Otherwise the stat goes at the end, with earlier batches and other keys unchanged; a missing `batches` is created first. |
| StatsWriting.IncrementedCount | services/migration/stats_writer.py:110 | An integer count `c` becomes `c + 1`. |
| StatsWriting.IncrementedAddsOne | services/migration/stats_writer.py:110 | The increment succeeds exactly for a missing count, an integer, a boolean or a float. It adds one to the count's numeric value (missing is 0), and the result is a float exactly when the count was. |
| StatsWriting.IncrementedWholeFloat | services/migration/stats_writer.py:110 | A whole float count such as `2.0` becomes the float `3.0`, written as Python writes it. |
| StatsWriting.DecimalTextWhole | services/migration/stats_writer.py:110 | A whole number written with one digit after the point reads `n.0`, as Python's `repr` of a whole float. |
| StatsWriting.FileCompletedSpec | services/migration/stats_writer.py:107-113 | It succeeds exactly when `files_completed` is missing, an integer, a boolean or a float; it then becomes the incremented count, `current_file` is cleared and `last_update` is set, and every other key is unchanged. |
| StatsWriting.MigrationCompletedSpec | services/migration/stats_writer.py:115-122 | `complete_migration` changes only `status` ("completed") and `last_update` in the progress. |
| StatsWriting.MigrationFailedSpec | services/migration/stats_writer.py:131-137 | `error_migration` changes only `status` ("error"), `error_message` and `last_update`. |
| StatsWriting.FinalResultsSpec | services/migration/stats_writer.py:123-129 | The saved results are the caller's plus `completion_time` and the metadata that is set. |
| StatsWriting.StatsWriter.constructor | services/migration/stats_writer.py:16-50 | Each document is initialised only when its file does not exist. |
| StatsWriting.StatsWriter.UpdateProgress | services/migration/stats_writer.py:66-71 | The progress becomes `ProgressUpdated` of the old one; stats and results are unchanged. |
| StatsWriting.StatsWriter.StartMigration | services/migration/stats_writer.py:73-97 | The progress and stats are replaced by the start documents; results are unchanged. |
| StatsWriting.StatsWriter.AddBatchStat | services/migration/stats_writer.py:99-105 | It succeeds exactly when the stats can take the stat, and then appends it; on failure nothing is written. |
| StatsWriting.StatsWriter.CompleteFile | services/migration/stats_writer.py:107-113 | It succeeds exactly when the count can be incremented, and only the progress changes. |
| StatsWriting.StatsWriter.CompleteMigration | services/migration/stats_writer.py:115-129 | The progress is marked completed and the final results saved; stats are unchanged. |
| StatsWriting.StatsWriter.ErrorMigration | services/migration/stats_writer.py:131-137 | Only the progress changes, to the failed document. |
| StatsWriting.StatsWriter.ClearAll | services/migration/stats_writer.py:151-153 | Re-running the initialisation leaves existing documents untouched. |
| TestRuns.CleanInstanceSpec | services/migration/test_run_manager.py:76 | The cleaned instance name has no `.` and no space; every other character stays in place. |
| TestRuns.TestIdDeterminesSettings | services/migration/test_run_manager.py:70-80 | Two test ids differing in batch size or connection count are different. |
| TestRuns.ToDictNames | services/migration/test_run_manager.py:30-32 | A run's dict holds its id, start time and provider under their own keys. |
| TestRuns.ToDictState | services/migration/test_run_manager.py:30-32 | A run's dict holds its settings, status and output directory under their own keys. |
| TestRuns.NewRunSpec | services/migration/test_run_manager.py:82-107 | A new run is "running", lives under `runs/{test_id}`, records its settings, and has no totals or error. |
| TestRuns.FirstMatch | services/migration/test_run_manager.py:109-118 | It finds the position of the first run with the id, or None when every run has a different id. A run lacking `test_id` before any match raises. |
| TestRuns.UpdateRunsSpec | services/migration/test_run_manager.py:109-118 | Only the first run with the id changes, and only in the updated keys. With no match the index is unchanged. |
| TestRuns.CompleteUpdatesSpec | services/migration/test_run_manager.py:120-130 | Completing sets status "completed" and the three totals, nothing else. |
| TestRuns.ErrorUpdatesSpec | services/migration/test_run_manager.py:132-138 | Failing sets status "error" and the message, nothing else. |
| TestRuns.WithFieldSpec | services/migration/test_run_manager.py:153-161 | The status and provider filters keep exactly the runs whose key has the value. |
| TestRuns.WithFieldConcat | services/migration/test_run_manager.py:153-161 | The filters keep the runs' order. |
| TestRuns.RecentRunsSpec | services/migration/test_run_manager.py:163-168 | It succeeds exactly when there is at most one run, or every `timestamp` is absent or a string, or every one is a number. It then returns `min(limit, n)` of the runs for a non-negative limit, none more often than it occurs. |
| TestRuns.RecentRunsByString | services/migration/test_run_manager.py:163-168 | With string keys (a missing one reads `""`) it succeeds, latest first, and no run left out is later than a run returned. |
| TestRuns.RecentRunsByNumber | services/migration/test_run_manager.py:163-168 | With number keys it succeeds, largest first, and no run left out has a larger key than a run returned. |
| TestRuns.PrefixOfSorted | services/migration/test_run_manager.py:165-168 | A cut of a sequence sorted by an order is a sub-multiset, in that order, and ahead of the rest. |
| TestRuns.TestRunManager.constructor | services/migration/test_run_manager.py:51-54 | An existing index is kept; a missing one starts as an empty `test_runs`. |
| TestRuns.TestRunManager.CreateTestRun | services/migration/test_run_manager.py:82-107 | Exactly one new run is appended at the end; existing runs are unchanged. |
| TestRuns.TestRunManager.FindRun | services/migration/test_run_manager.py:140-146 | The search loop computes `FirstMatch`. |
| TestRuns.TestRunManager.UpdateTestRun | services/migration/test_run_manager.py:109-118 | The index becomes `UpdateRuns`'s result; it is unchanged if that raised. |
| TestRuns.TestRunManager.CompleteTestRun | services/migration/test_run_manager.py:120-130 | The update with the completion keys. |
| TestRuns.TestRunManager.ErrorTestRun | services/migration/test_run_manager.py:132-138 | The update with the error keys. |
| TestRuns.TestRunManager.GetTestRun | services/migration/test_run_manager.py:140-146 | The first run with the id, or None; it raises as `FirstMatch` does. |
| DataProcessing.LoadJsonData | services/data_processor.py:26-35 | A parsed list is returned as it is; anything else is wrapped in a one-element list. |
| DataProcessing.ChunkDataSpec | services/data_processor.py:37-40 | Chunking fails exactly for size 0. For a positive size, the chunks concatenate back to the data, number `ceil(n/size)`, and are all full except a non-empty last one. |
| DataProcessing.ChunkResults | services/data_processor.py:76-82 | One result per chunk. |
| DataProcessing.CloudResultsSpec | services/data_processor.py:42-82 | A cloud whose connection test or table creation fails has exactly one failed result (chunk 0, 0 records), and no chunk is inserted. Otherwise the result at position `k` is the insert of chunk `k+1`. |
| DataProcessing.ManagerCloudResults | services/data_processor.py:42-82 | With `DatabaseManager` as backend, a connecting cloud has one result per chunk with its cloud, chunk id `k+1` and the chunk's size. Off mock mode, each of them succeeds. |
| DataProcessing.SuccessesAndFailures | services/data_processor.py:111-112 | `success_count + failure_count` is the number of results. |
| DataProcessing.ProcessAllSpec | services/data_processor.py:84-125 | Processing raises exactly for chunk size 0. Otherwise the results are the clouds' results concatenated in cloud order, with successes and failures counted. `total_records` is `len(data)` and `total_chunks` is chunks times clouds. |
| DataProcessing.ResultsFor | services/data_processor.py:127-134 | A cloud's results are exactly the results with that cloud. |
| DataProcessing.GroupByCloudSpec | services/data_processor.py:127-134 | Each cloud's group holds exactly its results, in order. A cloud has a group exactly when it has a result, and never two. |
| DataProcessing.GroupByCloudCount | services/data_processor.py:127-134 | Grouping neither loses nor duplicates a result. |
| DataProcessing.Successful | services/data_processor.py:142 | Keeps exactly the successful results. |
| DataProcessing.SummarizeSpec | services/data_processor.py:141-172 | Successful plus failed operations equal total operations. `total_records_inserted` sums the successful records. Without a success, every numeric field is 0. |
| DataProcessing.SummariesSpec | services/data_processor.py:136-174 | One summary per cloud that has results, in first-appearance order, each counting exactly that cloud's results. |
| DataProcessing.DataProcessor.constructor | services/data_processor.py:21-24 | A new processor has its chunk size and no results. |
| DataProcessing.DataProcessor.ProcessSingleCloud | services/data_processor.py:42-82 | The loop computes `CloudResults`. |
| DataProcessing.DataProcessor.ProcessAllClouds | services/data_processor.py:84-125 | `clouds` defaults to the configured ones. The statistics and `results` are those `ProcessAll` gives. |
| DataProcessing.DataProcessor.GatherClouds | services/data_processor.py:95-102 | The per-cloud lists, in cloud order. |
| DataProcessing.DataProcessor.ExtendResults | services/data_processor.py:104-106 | `results` becomes the lists concatenated in order. |
| DataProcessing.DataProcessor.GetResultsByCloud | services/data_processor.py:127-134 | The filing loop computes `GroupByCloud`. |
| DataProcessing.DataProcessor.GetPerformanceSummary | services/data_processor.py:136-174 | One summary per group, in order. |
| DbManager.DefinitionsSpec | services/db_manager.py:71-89 | One definition per field, in order; a field without `type` makes the whole list raise. |
| DbManager.CreationSqlSpec | services/db_manager.py:64-94 | The creation SQL exists exactly when the schema has a `table_name` and a dict of `fields`, each with a `type`. It then holds one definition per field, in schema order. |
| DbManager.ConstraintSpec | services/db_manager.py:75-78 | PRIMARY KEY exactly when `primary_key` is truthy. Otherwise NOT NULL exactly when `nullable` is present and falsy. |
| DbManager.DefaultClauseSpec | services/db_manager.py:80-87 | `NOW()` stays unquoted, a boolean becomes TRUE/FALSE, anything else is single-quoted; no `default` means no clause. |
| DbManager.GetTableCreationSql | services/db_manager.py:64-94 | The field loop computes `CreationSql`. |
| DbManager.InsertFields | services/db_manager.py:104-108 | Succeeds exactly when every field has a `type`. |
| DbManager.InsertFieldsMembers | services/db_manager.py:104-108 | A name is an insert column exactly when some field of that name is not SERIAL. |
| DbManager.InsertFieldsConcat | services/db_manager.py:106-108 | The insert columns keep the schema's order. |
| DbManager.Placeholders | services/db_manager.py:111 | There are `n` placeholders for `n` fields. |
| DbManager.PlaceholdersSpec | services/db_manager.py:111 | Placeholder `i` is `$` followed by `i+1`, and no two are alike. |
| DbManager.ParamTuple | services/db_manager.py:117-128 | A record's tuple has one element per insert column; it raises exactly when there are columns to read and the record is not a dict. |
| DbManager.ParamsSpec | services/db_manager.py:115-128 | One tuple per record, in order; a record that raises makes the whole call raise. |
| DbManager.ParamSpec | services/db_manager.py:119-126 | A parameter is `record.get(field)`, except that a dict `metadata` becomes its JSON text. |
| DbManager.InsertSqlSpec | services/db_manager.py:96-130 | No records give `("", [])` without reading the schema. Otherwise every record gets a tuple of the insert columns' length holding the record's values, None if absent. |
| DbManager.GenerateInsertSql | services/db_manager.py:96-130 | The two loops compute `InsertSql`. |
| DbManager.CollectInsertFields | services/db_manager.py:104-108 | The field loop computes `InsertFields`. |
| DbManager.CollectParams | services/db_manager.py:115-128 | The record loop computes `Params`. |
| DbManager.BuildTuple | services/db_manager.py:117-128 | The inner loop computes `ParamTuple`. |
| DbManager.ConnectionsOfSpec | services/db_manager.py:47-62 | One connection per configured cloud, in order and named after its key; no `clouds` section means none. |
| DbManager.ConnectionDefaults | services/db_manager.py:51-62 | A missing setting takes its default: localhost, 5432, `test_<cloud>`, postgres, require, 30. A given setting is kept. |
| DbManager.SetupConnections | services/db_manager.py:47-62 | The loop computes `ConnectionsOf`. |
| DbManager.BatchInsertSpec | services/db_manager.py:154-200 | A batch insert echoes its cloud and chunk id and counts the records. It fails exactly when the mock draw failed or raised, carrying a message then. Off mock mode it always succeeds. |
| DbManager.TestConnection | services/db_manager.py:132-142 | Always True off mock mode; in mock mode, the draw. |
| DbManager.CreateTable | services/db_manager.py:144-152 | Always True. |
| ConfigLoading.ReferenceLength | config/config_loader.py:27-29 | A `${...}` value is at least three characters, so `value[2:-1]` is a proper slice. |
| ConfigLoading.ExpandValueSpec | config/config_loader.py:27-34 | Anything but a `${...}` string is unchanged. In `${VAR:-default}` the name ends at the first `:-`, and the variable wins whenever it is set, even to "". `${VAR}` falls back to the original string. |
| ConfigLoading.ExpandSettings | config/config_loader.py:26-34 | A cloud's settings keep their number. |
| ConfigLoading.LoadDatabaseConfig | config/config_loader.py:18-36 | A loaded configuration is a mapping. |
| ConfigLoading.LoadDatabaseConfigSections | config/config_loader.py:18-36 | Keys stay in order and every section except `clouds` is untouched. Loading raises exactly for a non-mapping document, a non-mapping `clouds`, or a cloud whose settings are not a mapping. |
| ConfigLoading.LoadDatabaseConfigClouds | config/config_loader.py:25-34 | Each cloud keeps its name and place; its settings keep their keys, in order, with each value expanded. |
| ConfigLoading.ExpandEnvironment | config/config_loader.py:25-36 | The nested loops compute `LoadDatabaseConfig`. |
| ConfigLoading.ExpandSettingsInPlace | config/config_loader.py:26-34 | The in-place loop over one cloud's settings computes `ExpandSettings`. |
| ConfigLoading.SettingsSections | config/config_loader.py:38-59 | Both sections are returned as written when present, and as the literal defaults when absent. |
| ConfigLoading.DefaultTestSettingsValues | config/config_loader.py:41-46 | The test defaults are chunk size 10, 5 connections, 3 retries, 1.0 s delay. |
| ConfigLoading.DefaultMockSettingsValues | config/config_loader.py:51-59 | The mock defaults are enabled, simulated latency, and the three latency ranges. |
| Helpers.FirstMissing | utils/helpers.py:38-42 | The first required key the schema lacks. |
| Helpers.ValidateSchemaOrder | utils/helpers.py:38-47 | A missing `table_name` is reported before anything about `fields`, and a missing `fields` before its shape. |
| Helpers.ValidateSchemaSpec | utils/helpers.py:36-53 | A schema is accepted (True) exactly when it has both keys and a dict of fields that each hold `type`. Otherwise the first field lacking `type` is reported. |
| Helpers.ValidSchemaBuildsTable | utils/helpers.py:36-53 | Every schema that `get_table_creation_sql` accepts passes validation; the converse holds when the field configurations are dicts. |
| Helpers.ValidateSchemaConfig | utils/helpers.py:36-53 | The loops compute `ValidateSchema`. |
| Helpers.CheckCloudSpec | utils/helpers.py:63-66 | A cloud passes exactly when it has each required key; the first one absent is reported. |
| Helpers.ValidateDatabaseSpec | utils/helpers.py:55-68 | A configuration is accepted exactly when it has a dict of clouds, each holding host, database, user and password. A missing `clouds` is the first error. |
| Helpers.PortNotRequired | utils/helpers.py:61-66 | A configuration without `port` passes when the four required keys are present. |
| Helpers.ValidatedConnections | utils/helpers.py:55-68 | A validated configuration yields one connection per cloud, whose host, database, user and password come from the settings. |
| Helpers.ValidateDatabaseConfig | utils/helpers.py:55-68 | The loops compute `ValidateDatabase`. |
| Helpers.CheckCloudConfig | utils/helpers.py:64-66 | The inner loop computes `CheckCloud`. |
| Helpers.Percentiles | utils/helpers.py:91-98 | One entry per requested percentile. |
| Helpers.EmptyPercentiles | utils/helpers.py:95-96 | Without values, every requested percentile is 0 and numpy is never consulted. |
| Helpers.EmptyDefaultPercentiles | utils/helpers.py:91-96 | With the default list and no values: `{25: 0, 50: 0, 75: 0, 95: 0, 99: 0}`. |
| Helpers.SuccessfulClouds | utils/helpers.py:122-123 | Keeps exactly the clouds with `successful_operations > 0`. |
| Helpers.Numbered | utils/helpers.py:135-146 | Line `i` is numbered `i+1` and shows the upper-cased cloud. |
| Helpers.PerformanceRankingSpec | utils/helpers.py:121-146 | A ranking exists exactly when some cloud succeeded. Each list holds exactly the successful clouds, numbered 1..k: by throughput descending, and by average time ascending. |
| Helpers.RankingsAgree | utils/helpers.py:130-146 | Both rankings list the same clouds, each occurrence once. |
| Comparison.MergeKeysSpec | utils/comparison_utils.py:54-61 | The four merge keys are distinct and read as set. |
| Comparison.MergedLoaded | utils/comparison_utils.py:54-61 | A merged entry holds what was loaded; `has_stats`/`has_results` hold exactly when a loader returned a value. |
| Comparison.MergedKeeps | utils/comparison_utils.py:54-61 | A merged entry keeps the run's other keys unchanged and in place. |
| Comparison.MergeSpec | utils/comparison_utils.py:35-66 | One merged entry per run, in order. It raises exactly when a run has no string `output_dir`. |
| Comparison.MergeTestData | utils/comparison_utils.py:35-66 | The loop computes `Merge`. |
| Comparison.MetricOfSpec | utils/comparison_utils.py:83-93 | A missing total reads 0; a present one is taken as it is. |
| Comparison.MetricsSpec | utils/comparison_utils.py:69-94 | Exactly the completed runs, in order, one row each. It raises exactly when a completed run lacks a required key. |
| Comparison.MetricsConcat | utils/comparison_utils.py:81-94 | Runs that are not completed add nothing; completed ones add rows at the end. |
| Comparison.CalculatePerformanceMetrics | utils/comparison_utils.py:69-94 | The loop computes `Metrics`. |
| Comparison.MetricsPass | utils/comparison_utils.py:81-94 | One loop pass over `runs[i]`. |
| Comparison.MetricRow | utils/comparison_utils.py:83-93 | The row of one completed run is `MetricOf`. |
| Comparison.PercentageDifferenceSpec | utils/comparison_utils.py:106-110 | A zero base gives 0. Otherwise, applying the difference to the base gives the compared value, and the sign follows the change. |
| Comparison.ArgMax | utils/comparison_utils.py:132-135 | Missing values skipped, the first position of the largest value. |
| Comparison.ArgMin | utils/comparison_utils.py:132-135 | Missing values skipped, the first position of the smallest value. |
| Comparison.CompareMetricsBounds | utils/comparison_utils.py:125-155 | It succeeds exactly when every throughput and duration is a number or `None` (missing), and some row has each. The best throughput is then ≥ and the worst ≤ every present throughput; the fastest duration is ≤ and the slowest ≥ every present duration. |
| Comparison.CompareMetricsBest | utils/comparison_utils.py:132-140 | The best throughput is the record of a row with that throughput; every earlier row's throughput is missing or smaller. |
| Comparison.AnalyzeSpec | utils/comparison_utils.py:113-155 | "no_data" exactly when no run is completed; otherwise `total_tests` is the number of completed runs. |
| Comparison.RowHeadSpec | utils/comparison_utils.py:206-214 | A row's run part names the run and carries the label `{provider}-{instance}-b{batch}-c{conn}`. |
| Comparison.BatchRowSpec | utils/comparison_utils.py:206-216 | A row carries the batch's own keys; other keys come from the run part. |
| Comparison.RunRowsSpec | utils/comparison_utils.py:203-218 | One row per stored batch, in order, when the stats are a dict with a list of batch dicts. No stats, or no `batches`, gives no rows. |
| Comparison.BatchRowsSpec | utils/comparison_utils.py:189-220 | The selected runs' rows concatenated in selection order; their number is the sum of the batch counts. |
| Comparison.PrepareBatchComparisonData | utils/comparison_utils.py:189-220 | The outer loop computes `BatchRows`. |
| Comparison.CollectRows | utils/comparison_utils.py:205-218 | The inner loop computes `RunRows`. |
| Comparison.SummaryDefaults | utils/comparison_utils.py:223-230 | A run with none of the four settings is summarised as Unknown, Unknown, batch 0, conn 0. |
| Comparison.SummaryDeterminesConfig | utils/comparison_utils.py:223-230 | Equal summaries have equal batch sizes and connection counts. |
| SessionMonitor.ProjectNameSpec | calude-monitor.py:36-42 | A folder name of at most five `-`-separated parts is kept whole. A longer one yields its last three parts joined by `-`, and the folder name is the earlier parts, a `-`, and that project name. |
| SessionMonitor.ParseLinesConcat | calude-monitor.py:22-33 | Parsing two stretches of a file one after the other is parsing the whole, keeping line order. |
| SessionMonitor.ParseLinesSpec | calude-monitor.py:22-33 | One value per line that is not blank and decodes, nothing for any other line; each value is the decoding of its line. |
| SessionMonitor.ParseJsonlFile | calude-monitor.py:22-33 | The line loop computes `ParseLines`. |
| SessionMonitor.TokenField | calude-monitor.py:138-141 | `usage.get(key, 0)` as a count: 0 when missing, the value when an integer, an error otherwise. |
| SessionMonitor.ToolNames | calude-monitor.py:170-174 | A `content` list gives at most one tool name per item. |
| SessionMonitor.ToolNamesSpec | calude-monitor.py:168-174 | Each counted tool is the `name` (or "unknown") of some dict item whose type is "tool_use"; a list with no such item counts no tool. |
| SessionMonitor.MessageFactsShape | calude-monitor.py:132-136 | A message that is not a dict, or whose `message` is not a dict, raises. |
| SessionMonitor.MessageFactsProject | calude-monitor.py:132-133 | A message's project is the one its session id maps to, or "unknown". |
| SessionMonitor.MessageFactsUsage | calude-monitor.py:136-141 | A message carries usage exactly when `usage` is truthy; its token counts are then the fields' values, 0 when missing. |
| SessionMonitor.MessageFactsBranchTools | calude-monitor.py:164-174 | A branch is counted exactly when `gitBranch` is truthy; tools only from a list-valued `content`. |
| SessionMonitor.AddTo | calude-monitor.py:150 | Adding to a `defaultdict(int)` entry changes only that entry. |
| SessionMonitor.TallySingle | calude-monitor.py:136-174 | One message counts its token counts, its model, its branch and its tools. |
| SessionMonitor.TallyConcat | calude-monitor.py:130-174 | The totals and counts over two stretches of messages are the sums of theirs. |
| SessionMonitor.TallyCountsUsage | calude-monitor.py:149-161 | The model, project and day counts each sum to the number of messages with usage. |
| SessionMonitor.TallyProjectTokens | calude-monitor.py:146-160 | A project's tokens are the input plus output tokens of its messages with usage. |
| SessionMonitor.ProjectMapSpec | calude-monitor.py:128 | There is one key per session id, mapped to the project of the last session with that id. |
| SessionMonitor.AverageSpec | calude-monitor.py:177-181 | The average is 0 without messages; otherwise, times the message count, it gives the total back. |
| SessionMonitor.AnalysisOk | calude-monitor.py:103-207 | The counting gets through exactly when no message raises, with one contribution per message in order. The analysis then succeeds exactly when some message carries usage, some has a branch and some uses a tool (otherwise `sort_values` on an empty DataFrame raises), and its counters are those of the contributions. |
| SessionMonitor.TallyNonEmpty | calude-monitor.py:149-174 | The model counts are non-empty exactly when some message carries usage, the branch counts when some message has a branch, and the tool counts when some message uses a tool. |
| SessionMonitor.AnalysisSortable | calude-monitor.py:189-207 | Once the counting gets through, the analysis succeeds exactly when some message carries usage, some has a branch and some uses a tool, and its counters are then the messages' tally. |
| SessionMonitor.AnalysisFigures | calude-monitor.py:105-181 | `total_sessions` is the number of sessions and `total_messages` the sum of their message counts. The token totals are the counters', and the average is over all messages. |
| SessionMonitor.AnalyzeSessions | calude-monitor.py:103-207 | The three loops, the average and the empty-table check compute `Analysis`. |
| SessionMonitor.FinalStats | calude-monitor.py:110-118 | The `stats` figures, with the average set as at lines 177-181. |
| SessionMonitor.CollectMessages | calude-monitor.py:105-107 | `all_messages` is the sessions' messages, session after session. |
| SessionMonitor.BuildProjectMap | calude-monitor.py:128 | The comprehension computes `ProjectMap`. |
| SessionMonitor.CountMessages | calude-monitor.py:130-174 | The message loop computes `TallyAll`, stopping at the first message that raises. |
| SessionMonitor.CountMessage | calude-monitor.py:136-174 | One pass adds exactly what `Count` says one message adds. |
| SessionMonitor.CountUsage | calude-monitor.py:136-161 | The usage block's `+=` updates; branches and tools are unchanged. |
| SessionMonitor.CountTools | calude-monitor.py:171-174 | The tool loop adds one count per use. |

## Left out

- Database I/O is not modelled: psycopg2 connections, cursors, execute/executemany, commit and rollback.
  The database is the `accepts` oracle. With no column list (`get_table_columns` failing) a load does
  nothing, as in the source.
- `get_table_counts`, `print_summary`'s output text, `connect_to_db` and `close` are not modelled. They are
  I/O. `print_summary` is represented by its three groups and its total (`FileRuns.Summarize`).
- File and parse I/O is not modelled: `json.load`, `yaml.safe_load`, globbing, `mkdir` and file writes.
  Parsed content and directory listings are inputs, and the stats writer's and run index's files are
  fields.
- `load_all_sessions_from_projects` (calude-monitor.py:45-85) is directory I/O and is not modelled. The
  project-name rule it uses is modelled (`SessionMonitor.ProjectName`).
- Clocks, durations and rates are not modelled: `time.time`, `datetime.now`/`fromtimestamp`,
  `records_per_second`, `execution_time`, the phase-time breakdown of the dashboard loader, `avg_rps`,
  `total_duration`, and `format_execution_time`. Timestamps are opaque input strings, and batch stats keep
  only their integer fields.
- `calculate_cost` and every `cost` counter of `analyze_sessions` are left out, because they are
  floating-point arithmetic.
- The DataFrames, their sorting, `head(10)` and the Streamlit dashboard in calude-monitor.py are left out,
  except that `sort_values` on an empty table raises (`SessionMonitor.Analysis`). So are
  pandas `rank`/`groupby`/`mean` in comparison_utils.py, and the rank columns of
  `calculate_performance_metrics`.
- Randomness is not modelled: the mock-mode draws in services/db_manager.py are inputs (`MockDraw`,
  `connectDraw`). Their 95% and 98% rates and the latency sleeps are not modelled.
- `asyncio` concurrency is not modelled. The cloud tasks are run in cloud order, which `asyncio.gather`
  preserves for its results.
- `threading.Lock` in the stats writer and the run index is not modelled, and no atomicity is claimed.
- The whole UI is left out: the Streamlit code, `st.session_state`/`st.rerun` in the dashboard loader, its
  `progress_bar`, and logging.
- `generate_performance_report`'s text lines are not modelled. Only the ranking section's content and order
  are modelled (`Helpers.PerformanceRanking`).
- Helpers.PerformanceRankingSpec: it does not state that equal keys keep their input order. `sorted` is
  stable, but the lemma only proves the order by key, the numbering and the membership.
- numpy's `percentile` is a parameter; only the empty case of `calculate_percentiles` is stated.
- `json.dumps` (the `metadata` column in services/db_manager.py) and `json.loads` (calude-monitor.py) are
  parameters.
- `str.upper()` is modelled for ASCII letters only (`Strings.AsciiUpper`).
- `str()` of a nested list or dict is a placeholder text; the records loaded are flat.
- `get_supported_postgres_types`, `ensure_directory_exists`, `load_json_file`, `load_yaml_file` and
  `save_json_file` in utils/helpers.py are not modelled. They are a constant list and file I/O.
- `export_results_to_csv`, `export_summary_to_json`, `cleanup_table` and `get_connection_info` are not
  modelled. They are file I/O or mock-only.
- `get_test_output_dir`, `_read_index` and `_write_index` of the run index are not modelled. They are file
  I/O.
- `load_test_stats` and `load_test_results` in utils/comparison_utils.py are parameters (`Loader`), giving
  `Null` for a missing or unreadable file.
- The `except Exception` inside the file loop of `migrate_all_files` (migrate_cli.py:288-294) is not
  modelled. `process_file` catches every exception its own body raises, so only `KeyboardInterrupt` (the
  `interruptAt` input) reaches the loop's handlers.
- FileRuns.Processed, CliMigration.CliMigrator.MigrateAllFiles and PlainMigration.PlainMigrator.MigrateAllFiles
  model a `KeyboardInterrupt` between files only. One that arrives inside a file's `insert_batch`
  (migrate_cli.py:274-287, data_migration.py:219-231) leaves that file's earlier batches committed, their
  stats and progress written and `current_file` set, and appends no result for the file. The model does
  not capture that partial state.
- CliMigration.FinalResultsDoc: `str(e)` of a raised exception is the `reason` parameter. The saved
  results omit `total_duration_seconds`, `average_records_per_second` (clocks), `table_counts` and
  `initial_counts` (database reads).
- StatsWriting.Incremented: the text of an incremented float is only exact when the float's text is a plain
  decimal that loses nothing to rounding. Exponent notation, `nan` and `inf` are not modelled, and the float's
  value is an exact real.
- TestRuns.RecentRuns: a timestamp that is a list, dict or `None` is treated as not comparable with
  anything. Python would order two lists of comparable items.
- Comparison.Cell: pandas' handling of a column that mixes numbers with other objects is not modelled, and
  nor is a float `NaN` given as a value. A non-number, non-`None` cell is an error, and a column with no
  number makes `idxmax` raise. The means and groupings of the analysis are not modelled.
- SessionMonitor.TokenField: a token count that is a float or a bool makes the model report an error, where
  Python would add it. Counts are integers here.
- SessionMonitor.Hashable: Python's hash equality of `1`, `1.0` and `True` as dict keys is not modelled. A
  model name or branch is counted by its JSON value.
- SessionMonitor.Analysis: every exception is one unit error, so which exception was raised is not
  distinguished. The date of a timestamp (`datetime.fromisoformat`) is the `dayOf` parameter.
- Comparison.PercentageDifference is on exact reals rather than floating point.
- `Helpers.ValidateSchema` and `Helpers.ValidateDatabase` take the top-level configuration as a dict, as the
  callers pass it. `validate_database_config` on a non-dict `clouds` or cloud entry is modelled as
  raising.
