/**
 * What the three bid-data loaders (the command-line one, the dashboard one
 * and the plain one) have in common: the filename-to-table mapping, the
 * projection of a JSON record onto the table's columns, the composite `id`
 * of `opn_std_scsbid_info` rows, the INSERT text, and the batch-by-batch run
 * that commits each batch and stops at the first failure.
 */
module BidLoader {
  import opened Common
  import opened Strings
  import opened Json
  import opened Batching

  /** Which copy of the loader: they differ in blank handling, quoting and bookkeeping. */
  datatype Loader =
    | Cli        // migrate_cli.py: quoted columns, timestamps, batch stats and a stats writer
    | Dashboard  // services/migration/migrator.py: as Cli, "" becomes NULL, no stats writer
    | Plain      // data_migration.py: unquoted columns, no timestamps, no batch stats

  const SpecialTable: string := "opn_std_scsbid_info"

  // ---------------------------------------------------------------- tables

  const CnstwkPrefix: string := "BidPublicInfoService_BID_CNSTWK_"
  const ServcPrefix: string := "BidPublicInfoService_BID_SERVC_"
  const ThngPrefix: string := "BidPublicInfoService_BID_THNG_"
  const FrgcptPrefix: string := "BidPublicInfoService_BID_FRGCPT_"
  const ScsBidPrefix: string := "PubDataOpnStdService_ScsBidInfo_"

  /** The table a data file goes to, decided by the file name's prefix. */
  function TableForFilename(filename: string): Option<string> {
    if StartsWith(filename, CnstwkPrefix) then Some("bid_pblanclistinfo_cnstwk")
    else if StartsWith(filename, ServcPrefix) then Some("bid_pblanclistinfo_servc")
    else if StartsWith(filename, ThngPrefix) then Some("bid_pblanclistinfo_thng")
    else if StartsWith(filename, FrgcptPrefix) then Some("bid_pblanclistinfo_frgcpt")
    else if StartsWith(filename, ScsBidPrefix) then Some(SpecialTable)
    else None
  }

  /** The five prefixes exclude one another, so each one decides its table alone. */
  lemma TableForFilenameSpec(f: string)
    ensures StartsWith(f, CnstwkPrefix) ==> TableForFilename(f) == Some("bid_pblanclistinfo_cnstwk")
    ensures StartsWith(f, ServcPrefix) ==> TableForFilename(f) == Some("bid_pblanclistinfo_servc")
    ensures StartsWith(f, ThngPrefix) ==> TableForFilename(f) == Some("bid_pblanclistinfo_thng")
    ensures StartsWith(f, FrgcptPrefix) ==> TableForFilename(f) == Some("bid_pblanclistinfo_frgcpt")
    ensures StartsWith(f, ScsBidPrefix) ==> TableForFilename(f) == Some(SpecialTable)
    ensures TableForFilename(f).None? <==>
      !StartsWith(f, CnstwkPrefix) && !StartsWith(f, ServcPrefix) && !StartsWith(f, ThngPrefix) &&
      !StartsWith(f, FrgcptPrefix) && !StartsWith(f, ScsBidPrefix)
  {
    if StartsWith(f, ServcPrefix) || StartsWith(f, ThngPrefix) || StartsWith(f, FrgcptPrefix) {
      assert f[25] != 'C' by {
        assert f[25] == f[..30][25];
        assert ServcPrefix[25] == 'S' && ThngPrefix[25] == 'T' && FrgcptPrefix[25] == 'F';
      }
      assert CnstwkPrefix[25] == 'C';
      assert !StartsWith(f, CnstwkPrefix) by {
        if |CnstwkPrefix| <= |f| {
          assert f[..|CnstwkPrefix|][25] == f[25];
        }
      }
    }
    if StartsWith(f, ThngPrefix) || StartsWith(f, FrgcptPrefix) {
      assert ServcPrefix[25] == 'S';
      assert !StartsWith(f, ServcPrefix) by {
        if |ServcPrefix| <= |f| {
          assert f[..|ServcPrefix|][25] == f[25] == f[..30][25];
        }
      }
    }
    if StartsWith(f, FrgcptPrefix) {
      assert ThngPrefix[25] == 'T' && FrgcptPrefix[25] == 'F';
      assert !StartsWith(f, ThngPrefix) by {
        if |ThngPrefix| <= |f| {
          assert f[..|ThngPrefix|][25] == f[25] == f[..|FrgcptPrefix|][25];
        }
      }
    }
    if StartsWith(f, ScsBidPrefix) {
      assert f[0] == 'P' by { assert f[0] == f[..|ScsBidPrefix|][0]; }
      assert !StartsWith(f, CnstwkPrefix) && !StartsWith(f, ServcPrefix) &&
             !StartsWith(f, ThngPrefix) && !StartsWith(f, FrgcptPrefix) by {
        if |CnstwkPrefix| <= |f| { assert f[..|CnstwkPrefix|][0] == f[0]; }
        if |ServcPrefix| <= |f| { assert f[..|ServcPrefix|][0] == f[0]; }
        if |ThngPrefix| <= |f| { assert f[..|ThngPrefix|][0] == f[0]; }
        if |FrgcptPrefix| <= |f| { assert f[..|FrgcptPrefix|][0] == f[0]; }
      }
    }
  }

  /**
   * The column list the loaders ask the database for: the table's columns in
   * ordinal order without `createdAt`, `updatedAt` and `id`; a table the
   * database does not know has none.
   */
  function TableColumns(schema: map<string, seq<string>>, table: string): (cols: seq<string>)
    ensures forall c :: c in cols ==> c != "createdAt" && c != "updatedAt" && c != "id"
    ensures table in schema ==> forall c :: c in schema[table] && c != "createdAt" && c != "updatedAt" && c != "id" ==> c in cols
    ensures table !in schema ==> cols == []
  {
    if table in schema then Without(schema[table], ["createdAt", "updatedAt", "id"]) else []
  }

  function Without(cols: seq<string>, excluded: seq<string>): (r: seq<string>)
    ensures forall c :: c in r <==> c in cols && c !in excluded
  {
    if |cols| == 0 then []
    else (if cols[0] in excluded then [] else [cols[0]]) + Without(cols[1..], excluded)
  }

  // ------------------------------------------------------- record preparation

  /** A prepared record: column name to text, `None` for SQL NULL. */
  type Row = map<string, Option<string>>

  /** The text a present value is stored as; the dashboard loader also turns "" into NULL. */
  function ColumnText(v: Value, blankIsNull: bool): Option<string> {
    if v.Null? || (blankIsNull && v == Str("")) then None else Some(Stringify(v))
  }

  /**
   * One column of `prepare_record_data`: `Err` is the `TypeError` that
   * `column in record` or `record[column]` raises when the record is not a dict.
   */
  function Cell(record: Value, column: string, blankIsNull: bool): Result<Option<string>, ()> {
    match PyIn(column, record)
      case None => Err(())
      case Some(false) => Ok(None)
      case Some(true) =>
        match Subscript(record, column)
          case None => Err(())
          case Some(v) => Ok(ColumnText(v, blankIsNull))
  }

  predicate Preparable(record: Value, cols: seq<string>, blankIsNull: bool) {
    forall c :: c in cols ==> Cell(record, c, blankIsNull).Ok?
  }

  /** The prepared record of a preparable one: every column mapped to its cell. */
  function Prepare(record: Value, cols: seq<string>, blankIsNull: bool): Row
    requires Preparable(record, cols, blankIsNull)
  {
    map c | c in cols :: Cell(record, c, blankIsNull).value
  }

  /**
   * What `prepare_record_data` makes of a dict record: exactly the table's
   * columns; an absent or `None` value is NULL; a string is kept as it is
   * (the dashboard loader turns "" into NULL); anything else becomes `str(v)`.
   */
  lemma PrepareDictRecord(d: Dict, cols: seq<string>, blankIsNull: bool, c: string)
    ensures Preparable(Obj(d), cols, blankIsNull)
    ensures Prepare(Obj(d), cols, blankIsNull).Keys == set c' | c' in cols
    ensures c in cols && !HasKey(d, c) ==> Prepare(Obj(d), cols, blankIsNull)[c] == None
    ensures c in cols && Get(d, c) == Some(Null) ==> Prepare(Obj(d), cols, blankIsNull)[c] == None
    ensures c in cols && Get(d, c) == Some(Str("")) ==>
      Prepare(Obj(d), cols, blankIsNull)[c] == if blankIsNull then None else Some("")
    ensures c in cols && Get(d, c).Some? && Get(d, c).value.Str? && Get(d, c).value != Str("") ==>
      Prepare(Obj(d), cols, blankIsNull)[c] == Some(Get(d, c).value.s)
    ensures c in cols && Get(d, c).Some? && !Get(d, c).value.Str? && !Get(d, c).value.Null? ==>
      Prepare(Obj(d), cols, blankIsNull)[c] == Some(Stringify(Get(d, c).value))
  {
  }

  /** A record that is not a dict, list or string makes `column in record` raise. */
  lemma PrepareScalarRecordFails(record: Value, cols: seq<string>, blankIsNull: bool)
    requires |cols| > 0
    requires record.Null? || record.Bool? || record.Int? || record.Float?
    ensures !Preparable(record, cols, blankIsNull)
  {
    assert Cell(record, cols[0], blankIsNull).Err?;
  }

  // ----------------------------------------------------------- composite id

  /** `data.get(key, '')` of a prepared record, as an f-string renders it. */
  function FieldText(row: Row, key: string): string {
    if key in row then (match row[key] case None => "None" case Some(s) => s) else ""
  }

  /** The `id` of an `opn_std_scsbid_info` row at 1-based file position `position`. */
  function CompositeId(row: Row, position: nat): string {
    FieldText(row, "bidNtceNo") + "_" + FieldText(row, "bidNtceOrd") + "_" + NatToString(position)
  }

  /** Two ids are equal only if their positions are: the suffix after the last `_` is the position. */
  lemma CompositeIdDeterminesPosition(r1: Row, p1: nat, r2: Row, p2: nat)
    ensures CompositeId(r1, p1) == CompositeId(r2, p2) ==> p1 == p2
  {
    if CompositeId(r1, p1) == CompositeId(r2, p2) {
      var x1 := FieldText(r1, "bidNtceNo") + "_" + FieldText(r1, "bidNtceOrd");
      var x2 := FieldText(r2, "bidNtceNo") + "_" + FieldText(r2, "bidNtceOrd");
      NoSeparatorInDigits(NatToString(p1));
      NoSeparatorInDigits(NatToString(p2));
      SplitAtLastSeparator(x1, NatToString(p1), x2, NatToString(p2), '_');
      NatToStringInjective(p1, p2);
    }
  }

  lemma NoSeparatorInDigits(s: string)
    requires AllDigits(s)
    ensures '_' !in s
  {
    forall i | 0 <= i < |s| ensures s[i] != '_' {
      assert IsDigitChar(s[i]);
    }
  }

  /** Gives every row of a batch starting at 0-based file offset `start` its composite id. */
  function WithIds(rows: seq<Row>, table: string, start: nat): (r: seq<Row>)
    ensures |r| == |rows|
  {
    if table == SpecialTable then
      seq(|rows|, j requires 0 <= j < |rows| => rows[j]["id" := Some(CompositeId(rows[j], start + j + 1))])
    else rows
  }

  // ------------------------------------------------------------ INSERT text

  function QuoteIdent(c: string): string { "\"" + c + "\"" }

  function NamedParam(c: string): string { "%(" + c + ")s" }

  function QuotedList(cols: seq<string>): (r: seq<string>)
    ensures |r| == |cols| && forall i :: 0 <= i < |cols| ==> r[i] == QuoteIdent(cols[i])
  {
    seq(|cols|, i requires 0 <= i < |cols| => QuoteIdent(cols[i]))
  }

  function ParamList(cols: seq<string>): (r: seq<string>)
    ensures |r| == |cols| && forall i :: 0 <= i < |cols| ==> r[i] == NamedParam(cols[i])
  {
    seq(|cols|, i requires 0 <= i < |cols| => NamedParam(cols[i]))
  }

  /** The column list of the INSERT, before the special table's `id`. */
  function ColumnsText(l: Loader, cols: seq<string>): string {
    if l.Plain? then Join(cols, ", ")
    else Join(QuotedList(cols), ", ") + (", " + (QuoteIdent("createdAt") + ", " + QuoteIdent("updatedAt")))
  }

  /** The SQL expression the timestamp columns are set to. */
  const CurrentTimestamp: string := "CURRENT_TIMESTAMP"

  /** The VALUES list of the INSERT, before the special table's `id`. */
  function PlaceholdersText(l: Loader, cols: seq<string>): string {
    Join(ParamList(cols), ", ") + (if l.Plain? then "" else ", " + (CurrentTimestamp + ", " + CurrentTimestamp))
  }

  /** `"id", ` (`id, ` unquoted) and `%(id)s, `: what the special table's INSERT puts first. */
  function IdColumnText(l: Loader): string {
    (if l.Plain? then "id" else QuoteIdent("id")) + ", "
  }

  const IdParamText: string := NamedParam("id") + ", "

  /** The INSERT statement a loader builds for a batch, assembled the way the source does. */
  function InsertSql(l: Loader, table: string, cols: seq<string>): string {
    if table == SpecialTable then
      "INSERT INTO " + table + " (" + IdColumnText(l) + ColumnsText(l, cols)
      + ") VALUES (" + IdParamText + PlaceholdersText(l, cols) + ")"
    else
      "INSERT INTO " + table + " (" + ColumnsText(l, cols) + ") VALUES (" + PlaceholdersText(l, cols) + ")"
  }

  /** One target column of an INSERT and the value expression that fills it. */
  datatype Target = Target(column: string, value: string)

  function ColumnTargets(cols: seq<string>): (ts: seq<Target>)
    ensures |ts| == |cols|
  {
    seq(|cols|, i requires 0 <= i < |cols| => Target(cols[i], NamedParam(cols[i])))
  }

  function TimestampTargets(l: Loader): seq<Target> {
    if l.Plain? then [] else
      [Target("createdAt", CurrentTimestamp), Target("updatedAt", CurrentTimestamp)]
  }

  function IdTargets(table: string): seq<Target> {
    if table == SpecialTable then [Target("id", NamedParam("id"))] else []
  }

  /**
   * The columns an INSERT fills, in order: `id` first for the special table,
   * then the table's columns with their named parameters, then (for the
   * quoted loaders) the two timestamp columns set to CURRENT_TIMESTAMP.
   */
  function Targets(l: Loader, table: string, cols: seq<string>): seq<Target> {
    IdTargets(table) + ColumnTargets(cols) + TimestampTargets(l)
  }

  function ColumnNames(ts: seq<Target>, quoted: bool): (r: seq<string>)
    ensures |r| == |ts|
    ensures forall i :: 0 <= i < |ts| ==> r[i] == if quoted then QuoteIdent(ts[i].column) else ts[i].column
  {
    if |ts| == 0 then []
    else [if quoted then QuoteIdent(ts[0].column) else ts[0].column] + ColumnNames(ts[1..], quoted)
  }

  function ValueExprs(ts: seq<Target>): (r: seq<string>)
    ensures |r| == |ts|
    ensures forall i :: 0 <= i < |ts| ==> r[i] == ts[i].value
  {
    if |ts| == 0 then [] else [ts[0].value] + ValueExprs(ts[1..])
  }

  /** An INSERT that lists the targets' columns and, position for position, their values. */
  function RenderInsert(table: string, ts: seq<Target>, quoted: bool): string {
    "INSERT INTO " + table + " (" + Join(ColumnNames(ts, quoted), ", ") + ") VALUES ("
    + Join(ValueExprs(ts), ", ") + ")"
  }

  lemma ColumnNamesConcat(a: seq<Target>, b: seq<Target>, q: bool)
    ensures ColumnNames(a + b, q) == ColumnNames(a, q) + ColumnNames(b, q)
  {
    var l, r := ColumnNames(a + b, q), ColumnNames(a, q) + ColumnNames(b, q);
    forall i | 0 <= i < |l| ensures l[i] == r[i] {
      if i < |a| { assert (a + b)[i] == a[i]; } else { assert (a + b)[i] == b[i - |a|]; }
    }
  }

  lemma ValueExprsConcat(a: seq<Target>, b: seq<Target>)
    ensures ValueExprs(a + b) == ValueExprs(a) + ValueExprs(b)
  {
    var l, r := ValueExprs(a + b), ValueExprs(a) + ValueExprs(b);
    forall i | 0 <= i < |l| ensures l[i] == r[i] {
      if i < |a| { assert (a + b)[i] == a[i]; } else { assert (a + b)[i] == b[i - |a|]; }
    }
  }

  lemma ColumnTargetsNames(cols: seq<string>, q: bool)
    ensures ColumnNames(ColumnTargets(cols), q) == if q then QuotedList(cols) else cols
    ensures ValueExprs(ColumnTargets(cols)) == ParamList(cols)
  {
  }

  lemma TimestampTexts(l: Loader)
    ensures l.Plain? ==> ColumnNames(TimestampTargets(l), false) == [] && ValueExprs(TimestampTargets(l)) == []
    ensures !l.Plain? ==> ColumnNames(TimestampTargets(l), true) == [QuoteIdent("createdAt"), QuoteIdent("updatedAt")]
    ensures !l.Plain? ==> ValueExprs(TimestampTargets(l)) == [CurrentTimestamp, CurrentTimestamp]
  {
  }

  lemma ColumnsTextIsTargets(l: Loader, cols: seq<string>)
    requires |cols| > 0
    ensures ColumnsText(l, cols) == Join(ColumnNames(ColumnTargets(cols) + TimestampTargets(l), !l.Plain?), ", ")
  {
    var q := !l.Plain?;
    var names := ColumnNames(ColumnTargets(cols) + TimestampTargets(l), q);
    ColumnNamesConcat(ColumnTargets(cols), TimestampTargets(l), q);
    ColumnTargetsNames(cols, q);
    TimestampTexts(l);
    if !l.Plain? {
      QuotedColumnsText(cols);
    } else {
      assert names == cols + [];
      assert cols + [] == cols;
      assert ColumnsText(l, cols) == Join(cols, ", ");
    }
  }

  lemma QuotedColumnsText(cols: seq<string>)
    requires |cols| > 0
    ensures Join(QuotedList(cols) + [QuoteIdent("createdAt"), QuoteIdent("updatedAt")], ", ")
         == Join(QuotedList(cols), ", ") + (", " + (QuoteIdent("createdAt") + ", " + QuoteIdent("updatedAt")))
  {
    JoinTwoMore(QuotedList(cols), QuoteIdent("createdAt"), QuoteIdent("updatedAt"), ", ");
  }

  lemma TimestampParamsText(cols: seq<string>)
    requires |cols| > 0
    ensures Join(ParamList(cols) + [CurrentTimestamp, CurrentTimestamp], ", ")
         == Join(ParamList(cols), ", ") + (", " + (CurrentTimestamp + ", " + CurrentTimestamp))
  {
    JoinTwoMore(ParamList(cols), CurrentTimestamp, CurrentTimestamp, ", ");
  }

  lemma PlaceholdersTextIsTargets(l: Loader, cols: seq<string>)
    requires |cols| > 0
    ensures PlaceholdersText(l, cols) == Join(ValueExprs(ColumnTargets(cols) + TimestampTargets(l)), ", ")
  {
    var exprs := ValueExprs(ColumnTargets(cols) + TimestampTargets(l));
    ValueExprsConcat(ColumnTargets(cols), TimestampTargets(l));
    ColumnTargetsNames(cols, true);
    TimestampTexts(l);
    if !l.Plain? {
      assert exprs == ParamList(cols) + [CurrentTimestamp, CurrentTimestamp];
      TimestampParamsText(cols);
    } else {
      assert exprs == ParamList(cols) + [];
      assert ParamList(cols) + [] == ParamList(cols);
      assert Join(ParamList(cols), ", ") + "" == Join(ParamList(cols), ", ");
    }
  }

  /**
   * The text the source assembles is the INSERT of `Targets`: each listed
   * column is matched by the value expression at the same position.
   */
  lemma InsertSqlMatchesTargets(l: Loader, table: string, cols: seq<string>)
    requires |cols| > 0
    ensures InsertSql(l, table, cols) == RenderInsert(table, Targets(l, table, cols), !l.Plain?)
  {
    var rest := ColumnTargets(cols) + TimestampTargets(l);
    ConcatAssoc(IdTargets(table), ColumnTargets(cols), TimestampTargets(l));
    if table == SpecialTable {
      SpecialInsertSql(l, cols, rest);
    } else {
      assert IdTargets(table) + rest == rest;
      OtherInsertSql(l, table, cols, rest);
    }
  }

  lemma OtherInsertSql(l: Loader, table: string, cols: seq<string>, rest: seq<Target>)
    requires table != SpecialTable && |cols| > 0 && rest == ColumnTargets(cols) + TimestampTargets(l)
    ensures InsertSql(l, table, cols) == RenderInsert(table, rest, !l.Plain?)
  {
    ColumnsTextIsTargets(l, cols);
    PlaceholdersTextIsTargets(l, cols);
  }

  lemma SpecialInsertSql(l: Loader, cols: seq<string>, rest: seq<Target>)
    requires |cols| > 0 && rest == ColumnTargets(cols) + TimestampTargets(l)
    ensures InsertSql(l, SpecialTable, cols) == RenderInsert(SpecialTable, IdTargets(SpecialTable) + rest, !l.Plain?)
  {
    ColumnsTextIsTargets(l, cols);
    PlaceholdersTextIsTargets(l, cols);
    var q := !l.Plain?;
    var ts := IdTargets(SpecialTable) + rest;
    var a, b := ColumnsText(l, cols), PlaceholdersText(l, cols);
    IdFirst(rest, q, l.Plain?);
    var p := IdColumnText(l);
    assert Join(ColumnNames(ts, q), ", ") == p + a;
    assert Join(ValueExprs(ts), ", ") == IdParamText + b;
    Regroup(SpecialTable, p, a, IdParamText, b);
  }

  lemma Regroup(table: string, p: string, a: string, r: string, b: string)
    ensures "INSERT INTO " + table + " (" + p + a + ") VALUES (" + r + b + ")"
         == "INSERT INTO " + table + " (" + (p + a) + ") VALUES (" + (r + b) + ")"
  {
  }

  /** With `id` in front, the lists gain `"id", ` (or `id, `) and `%(id)s, `. */
  lemma IdFirst(rest: seq<Target>, q: bool, plain: bool)
    requires |rest| > 0 && q == !plain
    ensures Join(ColumnNames([Target("id", NamedParam("id"))] + rest, q), ", ")
         == (if plain then "id" else QuoteIdent("id")) + ", " + Join(ColumnNames(rest, q), ", ")
    ensures Join(ValueExprs([Target("id", NamedParam("id"))] + rest), ", ")
         == IdParamText + Join(ValueExprs(rest), ", ")
  {
    var t := Target("id", NamedParam("id"));
    var name := if q then QuoteIdent("id") else "id";
    assert ColumnNames([t], q) == [name];
    ColumnNamesConcat([t], rest, q);
    JoinConcat([name], ColumnNames(rest, q), ", ");
    assert ValueExprs([t]) == [NamedParam("id")];
    ValueExprsConcat([t], rest);
    JoinConcat([NamedParam("id")], ValueExprs(rest), ", ");
  }

  // ----------------------------------------------------------- batch run

  /** One batch's entry in `batch_performance_stats`, without its clock readings. */
  datatype BatchStat = BatchStat(batchNumber: nat, tableName: string, recordsCount: nat, cumulativeRecords: nat)

  /** One `executemany` of a batch followed by its `commit`. */
  datatype Commit = Commit(sql: string, rows: seq<Row>)

  /** What makes `insert_batch` roll back and re-raise. */
  datatype LoadError =
    | ZeroBatchSize                       // range() with step 0
    | RecordNotIndexable(batchNumber: nat) // prepare_record_data on a record that is not a dict
    | DatabaseRejected(batchNumber: nat)   // executemany or commit raised
    | StatsNotAppendable(batchNumber: nat) // the stats writer's `batches` is not a list

  /**
   * The effect of one `insert_batch` call: the batches committed, in order,
   * the batch stats recorded, `total_inserted`, and the error it re-raised.
   */
  datatype Run = Run(commits: seq<Commit>, stats: seq<BatchStat>, total: nat, failure: Option<LoadError>)

  const NoRun: Run := Run([], [], 0, None)

  /** The records of one batch prepared one by one; `None` if one of them raises. */
  function PrepareAll(chunk: seq<Value>, cols: seq<string>, blankIsNull: bool): (r: Option<seq<Row>>)
    ensures r.Some? <==> forall i :: 0 <= i < |chunk| ==> Preparable(chunk[i], cols, blankIsNull)
    ensures r.Some? ==> |r.value| == |chunk|
    ensures r.Some? ==> forall i :: 0 <= i < |chunk| ==>
      Preparable(chunk[i], cols, blankIsNull) && r.value[i] == Prepare(chunk[i], cols, blankIsNull)
  {
    if |chunk| == 0 then Some([])
    else if !Preparable(chunk[0], cols, blankIsNull) then None
    else match PrepareAll(chunk[1..], cols, blankIsNull)
      case None => None
      case Some(rest) => Some([Prepare(chunk[0], cols, blankIsNull)] + rest)
  }

  /** A load of `records` into `table` with batch size `size > 0`, each batch sent with the statement `sql`. */
  datatype Job = Job(loader: Loader, table: string, cols: seq<string>, records: seq<Value>, size: nat, sql: string)

  /** The job `insert_batch` runs: every batch uses the same INSERT text. */
  function JobFor(l: Loader, table: string, cols: seq<string>, records: seq<Value>, b: nat): (j: Job)
    ensures j.loader == l && j.table == table && j.cols == cols && j.records == records && j.size == b
    ensures j.sql == InsertSql(l, table, cols)
  {
    Job(l, table, cols, records, b, InsertSql(l, table, cols))
  }

  function Batches(j: Job): seq<seq<Value>>
    requires j.size > 0
  {
    Chunks(j.records, j.size)
  }

  /** The rows batch `k` sends: its records prepared, with ids for the special table. */
  function PlannedRows(j: Job, k: nat): Option<seq<Row>>
    requires j.size > 0 && k < |Batches(j)|
  {
    match PrepareAll(Batches(j)[k], j.cols, j.loader.Dashboard?)
      case None => None
      case Some(rows) => Some(WithIds(rows, j.table, k * j.size))
  }

  function PlannedStat(j: Job, k: nat): BatchStat
    requires j.size > 0 && k < |Batches(j)|
  {
    BatchStat(k + 1, j.table, |Batches(j)[k]|, SumSizes(Batches(j)[..k + 1]))
  }

  /**
   * `run` holds exactly the first `m` batches of `j`, each prepared, accepted
   * and committed in order, with their stats (none for the plain loader) and
   * their running total.
   */
  ghost predicate Committed(j: Job, accepts: Commit -> bool, run: Run, m: nat)
    requires j.size > 0
  {
    m <= |Batches(j)| && |run.commits| == m && run.total == SumSizes(Batches(j)[..m]) &&
    (forall i :: 0 <= i < m ==>
      PlannedRows(j, i).Some? && run.commits[i] == Commit(j.sql, PlannedRows(j, i).value) &&
      accepts(run.commits[i])) &&
    (j.loader.Plain? ==> run.stats == []) &&
    (!j.loader.Plain? ==> |run.stats| == m && forall i :: 0 <= i < m ==> run.stats[i] == PlannedStat(j, i))
  }

  /**
   * The loop of `insert_batch` from batch `k` on, `acc` being what batches
   * `0..k-1` did. `accepts` is the database's verdict on a batch;
   * `appendable` says whether the stats writer can append a batch stat.
   */
  function RunFrom(j: Job, accepts: Commit -> bool, appendable: bool, k: nat, acc: Run): Run
    requires j.size > 0 && k <= |Batches(j)|
    decreases |Batches(j)| - k
  {
    if k == |Batches(j)| then acc
    else match PlannedRows(j, k)
      case None => acc.(failure := Some(RecordNotIndexable(k + 1)))
      case Some(rows) =>
        var c := Commit(j.sql, rows);
        if !accepts(c) then acc.(failure := Some(DatabaseRejected(k + 1)))
        else
          var total := acc.total + |rows|;
          var stats := if j.loader.Plain? then acc.stats else acc.stats + [BatchStat(k + 1, j.table, |rows|, total)];
          var next := Run(acc.commits + [c], stats, total, None);
          if j.loader.Cli? && !appendable then next.(failure := Some(StatsNotAppendable(k + 1)))
          else RunFrom(j, accepts, appendable, k + 1, next)
  }

  /** `insert_batch(table, records, b)` over the columns `cols` the database reports. */
  function Load(l: Loader, table: string, cols: seq<string>, records: seq<Value>, b: int,
                accepts: Commit -> bool, appendable: bool): Run
  {
    if |records| == 0 || |cols| == 0 then NoRun
    else if b == 0 then NoRun.(failure := Some(ZeroBatchSize))
    else if b < 0 then NoRun
    else RunFrom(JobFor(l, table, cols, records, b), accepts, appendable, 0, NoRun)
  }

  lemma PlannedRowsLength(j: Job, k: nat)
    requires j.size > 0 && k < |Batches(j)| && PlannedRows(j, k).Some?
    ensures |PlannedRows(j, k).value| == |Batches(j)[k]|
  {
  }

  /** One more accepted batch extends the committed prefix by one. */
  lemma CommittedStep(j: Job, accepts: Commit -> bool, acc: Run, k: nat, rows: seq<Row>)
    requires j.size > 0 && k < |Batches(j)| && Committed(j, accepts, acc, k)
    requires PlannedRows(j, k) == Some(rows)
    requires accepts(Commit(j.sql, rows))
    ensures var total := acc.total + |rows|;
      Committed(j, accepts,
        Run(acc.commits + [Commit(j.sql, rows)],
            if j.loader.Plain? then acc.stats else acc.stats + [BatchStat(k + 1, j.table, |rows|, total)],
            total, None), k + 1)
  {
    var cs := Batches(j);
    PlannedRowsLength(j, k);
    assert cs[..k + 1] == cs[..k] + [cs[k]];
    SumSizesAppend(cs[..k], cs[k]);
  }

  /**
   * From a committed prefix of `k` batches, the loop commits further batches
   * in order, and with no failure it has committed every batch.
   */
  lemma {:induction false} RunFromCommits(j: Job, accepts: Commit -> bool, appendable: bool, k: nat, acc: Run)
    requires j.size > 0 && k <= |Batches(j)| && Committed(j, accepts, acc, k) && acc.failure.None?
    ensures var r := RunFrom(j, accepts, appendable, k, acc);
      k <= |r.commits| && Committed(j, accepts, r.(failure := None), |r.commits|) &&
      (r.failure.None? ==> |r.commits| == |Batches(j)|)
    decreases |Batches(j)| - k
  {
    if k < |Batches(j)| {
      match PlannedRows(j, k)
        case None =>
        case Some(rows) =>
          var c := Commit(j.sql, rows);
          if accepts(c) {
            var total := acc.total + |rows|;
            var stats := if j.loader.Plain? then acc.stats else acc.stats + [BatchStat(k + 1, j.table, |rows|, total)];
            var next := Run(acc.commits + [c], stats, total, None);
            CommittedStep(j, accepts, acc, k, rows);
            if !(j.loader.Cli? && !appendable) {
              RunFromCommits(j, accepts, appendable, k + 1, next);
            }
          }
    }
  }

  /**
   * The loop stops exactly at the first batch that cannot be prepared, that
   * the database rejects, or (command-line loader) whose stat cannot be
   * written, and names that batch.
   */
  lemma {:induction false} RunFromStops(j: Job, accepts: Commit -> bool, appendable: bool, k: nat, acc: Run)
    requires j.size > 0 && k <= |Batches(j)| && |acc.commits| == k && acc.failure.None?
    ensures var r := RunFrom(j, accepts, appendable, k, acc);
      (r.failure.Some? ==> !r.failure.value.ZeroBatchSize?) &&
      (r.failure.Some? && !r.failure.value.StatsNotAppendable? ==>
        r.failure.value.batchNumber == |r.commits| + 1 && |r.commits| < |Batches(j)|) &&
      (r.failure.Some? && r.failure.value.RecordNotIndexable? ==> PlannedRows(j, |r.commits|).None?) &&
      (r.failure.Some? && r.failure.value.DatabaseRejected? ==>
        PlannedRows(j, |r.commits|).Some? &&
        !accepts(Commit(j.sql, PlannedRows(j, |r.commits|).value))) &&
      (r.failure.Some? && r.failure.value.StatsNotAppendable? ==>
        j.loader.Cli? && !appendable && r.failure.value.batchNumber == |r.commits| == k + 1)
    decreases |Batches(j)| - k
  {
    if k < |Batches(j)| {
      match PlannedRows(j, k)
        case None =>
        case Some(rows) =>
          var c := Commit(j.sql, rows);
          if accepts(c) {
            var total := acc.total + |rows|;
            var stats := if j.loader.Plain? then acc.stats else acc.stats + [BatchStat(k + 1, j.table, |rows|, total)];
            var next := Run(acc.commits + [c], stats, total, None);
            if !(j.loader.Cli? && !appendable) {
              RunFromStops(j, accepts, appendable, k + 1, next);
            }
          }
    }
  }

  /** `insert_batch`: nothing for empty input, the range() error for size 0, the loop otherwise. */
  lemma LoadSpec(l: Loader, table: string, cols: seq<string>, records: seq<Value>, b: int,
                 accepts: Commit -> bool, appendable: bool)
    ensures var r := Load(l, table, cols, records, b, accepts, appendable);
      ((|records| == 0 || |cols| == 0 || b < 0) ==> r == NoRun) &&
      (|records| > 0 && |cols| > 0 && b == 0 ==> r.commits == [] && r.failure == Some(ZeroBatchSize)) &&
      (|records| > 0 && |cols| > 0 && b > 0 ==>
        var j := JobFor(l, table, cols, records, b);
        Committed(j, accepts, r.(failure := None), |r.commits|) &&
        (r.failure.None? ==> |r.commits| == |Batches(j)|) &&
        (r.failure.Some? ==> !r.failure.value.ZeroBatchSize?) &&
        (r.failure.Some? && !r.failure.value.StatsNotAppendable? ==>
          r.failure.value.batchNumber == |r.commits| + 1 && |r.commits| < |Batches(j)|) &&
        (r.failure.Some? && r.failure.value.RecordNotIndexable? ==> PlannedRows(j, |r.commits|).None?) &&
        (r.failure.Some? && r.failure.value.DatabaseRejected? ==>
          PlannedRows(j, |r.commits|).Some? &&
          !accepts(Commit(j.sql, PlannedRows(j, |r.commits|).value))) &&
        (r.failure.Some? && r.failure.value.StatsNotAppendable? ==>
          l.Cli? && !appendable && r.failure.value.batchNumber == |r.commits| == 1))
  {
    if |records| > 0 && |cols| > 0 && b > 0 {
      var j := JobFor(l, table, cols, records, b);
      assert Batches(j)[..0] == [];
      RunFromCommits(j, accepts, appendable, 0, NoRun);
      RunFromStops(j, accepts, appendable, 0, NoRun);
    }
  }

  /**
   * A load in which every batch succeeds: `ceil(n/b)` batches numbered from 1,
   * all of size `b` but the last, which holds the rest; `total_inserted` is n.
   */
  lemma LoadCompleteCounts(l: Loader, table: string, cols: seq<string>, records: seq<Value>, b: int,
                           accepts: Commit -> bool, appendable: bool)
    requires |records| > 0 && |cols| > 0 && b > 0
    requires Load(l, table, cols, records, b, accepts, appendable).failure.None?
    ensures var r := Load(l, table, cols, records, b, accepts, appendable);
      var n, count := |records|, CeilDiv(|records|, b);
      r.total == n && |r.commits| == count && count >= 1 &&
      (!l.Plain? ==> (
        |r.stats| == count &&
        (forall k :: 0 <= k < count ==> r.stats[k].batchNumber == k + 1 && r.stats[k].tableName == table) &&
        (forall k :: 0 <= k < count - 1 ==> r.stats[k].recordsCount == b) &&
        r.stats[count - 1].recordsCount == n - b * (count - 1))) &&
      (l.Plain? ==> r.stats == [])
  {
    var r := Load(l, table, cols, records, b, accepts, appendable);
    LoadCommitsAll(l, table, cols, records, b, accepts, appendable, r);
    CompleteRunCounts(JobFor(l, table, cols, records, b), accepts, r);
  }

  /** A load that did not fail committed every batch of its job. */
  lemma LoadCommitsAll(l: Loader, table: string, cols: seq<string>, records: seq<Value>, b: int,
                       accepts: Commit -> bool, appendable: bool, r: Run)
    requires |records| > 0 && |cols| > 0 && b > 0
    requires r == Load(l, table, cols, records, b, accepts, appendable) && r.failure.None?
    ensures Committed(JobFor(l, table, cols, records, b), accepts, r, |Batches(JobFor(l, table, cols, records, b))|)
  {
    LoadSpec(l, table, cols, records, b, accepts, appendable);
    assert r.(failure := None) == r;
  }

  /** A run that committed every batch of a job: the counts of `LoadCompleteCounts`. */
  lemma CompleteRunCounts(j: Job, accepts: Commit -> bool, r: Run)
    requires j.size > 0 && |j.records| > 0 && Committed(j, accepts, r, |Batches(j)|)
    ensures var n, b, count := |j.records|, j.size, CeilDiv(|j.records|, j.size);
      r.total == n && |r.commits| == count && count >= 1 &&
      (!j.loader.Plain? ==> (
        |r.stats| == count &&
        (forall k :: 0 <= k < count ==> r.stats[k].batchNumber == k + 1 && r.stats[k].tableName == j.table) &&
        (forall k :: 0 <= k < count - 1 ==> r.stats[k].recordsCount == b) &&
        r.stats[count - 1].recordsCount == n - b * (count - 1))) &&
      (j.loader.Plain? ==> r.stats == [])
  {
    var records, b, cs := j.records, j.size, Batches(j);
    ChunkCountIsCeilDiv(records, b);
    ChunkCount(records, b);
    FlattenChunks(records, b);
    FlattenLength(cs);
    assert cs[..|cs|] == cs;
    if !j.loader.Plain? {
      forall k | 0 <= k < |cs|
        ensures (k < |cs| - 1 ==> r.stats[k].recordsCount == b)
        ensures (k == |cs| - 1 ==> r.stats[k].recordsCount == |records| - k * b)
      {
        assert r.stats[k] == PlannedStat(j, k);
        ChunkSizes(records, b, k);
      }
      assert b * (|cs| - 1) == (|cs| - 1) * b;
    }
  }

  /** The sum of `records_count` over a list of batch stats. */
  function StatSum(stats: seq<BatchStat>): nat {
    if |stats| == 0 then 0 else StatSum(stats[..|stats| - 1]) + stats[|stats| - 1].recordsCount
  }

  lemma {:induction false} StatSumIsSumSizes(j: Job, stats: seq<BatchStat>, m: nat)
    requires j.size > 0 && m <= |Batches(j)| && m <= |stats|
    requires forall i :: 0 <= i < m ==> stats[i] == PlannedStat(j, i)
    ensures StatSum(stats[..m]) == SumSizes(Batches(j)[..m])
  {
    var cs := Batches(j);
    if m > 0 {
      StatSumIsSumSizes(j, stats, m - 1);
      assert stats[..m][..m - 1] == stats[..m - 1];
      assert cs[..m] == cs[..m - 1] + [cs[m - 1]];
      SumSizesAppend(cs[..m - 1], cs[m - 1]);
    }
  }

  /**
   * In a committed prefix, `cumulative_records` of a batch is the sum of
   * `records_count` up to and including it, so it grows strictly from batch
   * to batch; and `total_inserted` sums all of them.
   */
  lemma CommittedCumulative(j: Job, accepts: Commit -> bool, run: Run, m: nat)
    requires j.size > 0 && !j.loader.Plain? && Committed(j, accepts, run, m)
    ensures |run.stats| == |run.commits|
    ensures forall k :: 0 <= k < |run.stats| ==>
      run.stats[k].recordsCount > 0 && run.stats[k].cumulativeRecords == StatSum(run.stats[..k + 1])
    ensures forall k :: 0 < k < |run.stats| ==> run.stats[k - 1].cumulativeRecords < run.stats[k].cumulativeRecords
    ensures run.total == StatSum(run.stats)
  {
    forall k | 0 <= k < |run.stats|
      ensures run.stats[k].recordsCount > 0 && run.stats[k].cumulativeRecords == StatSum(run.stats[..k + 1])
    {
      StatSumIsSumSizes(j, run.stats, k + 1);
    }
    forall k | 0 < k < |run.stats|
      ensures run.stats[k - 1].cumulativeRecords < run.stats[k].cumulativeRecords
    {
      assert run.stats[..k + 1][..k] == run.stats[..k];
    }
    StatSumIsSumSizes(j, run.stats, |run.stats|);
    assert run.stats[..|run.stats|] == run.stats;
  }

  /** `CommittedCumulative` for every load, finished or stopped by an error. */
  lemma CumulativeRecords(l: Loader, table: string, cols: seq<string>, records: seq<Value>, b: int,
                          accepts: Commit -> bool, appendable: bool)
    requires !l.Plain?
    ensures var r := Load(l, table, cols, records, b, accepts, appendable);
      |r.stats| == |r.commits| &&
      (forall k :: 0 <= k < |r.stats| ==>
        r.stats[k].recordsCount > 0 && r.stats[k].cumulativeRecords == StatSum(r.stats[..k + 1])) &&
      (forall k :: 0 < k < |r.stats| ==> r.stats[k - 1].cumulativeRecords < r.stats[k].cumulativeRecords) &&
      r.total == StatSum(r.stats)
  {
    var r := Load(l, table, cols, records, b, accepts, appendable);
    LoadSpec(l, table, cols, records, b, accepts, appendable);
    if |records| > 0 && |cols| > 0 && b > 0 {
      CommittedCumulative(JobFor(l, table, cols, records, b), accepts, r.(failure := None), |r.commits|);
    }
  }

  /** A load that committed anything is a committed prefix of its batches. */
  lemma LoadCommitted(l: Loader, table: string, cols: seq<string>, records: seq<Value>, b: int,
                      accepts: Commit -> bool, appendable: bool)
    ensures var r := Load(l, table, cols, records, b, accepts, appendable);
      |r.commits| > 0 ==> (|records| > 0 && |cols| > 0 && b > 0 &&
        Committed(JobFor(l, table, cols, records, b), accepts, r.(failure := None), |r.commits|))
  {
    LoadSpec(l, table, cols, records, b, accepts, appendable);
  }

  /** The row batch loading sends for the record at 0-based file position `p`. */
  function FileRow(l: Loader, table: string, cols: seq<string>, records: seq<Value>, p: nat): Row
    requires p < |records| && Preparable(records[p], cols, l.Dashboard?)
  {
    var row := Prepare(records[p], cols, l.Dashboard?);
    if table == SpecialTable then row["id" := Some(CompositeId(row, p + 1))] else row
  }

  /** Row `i` of committed batch `k` is the record at file position `k*b + i`, prepared. */
  lemma CommittedRowIsFileRow(j: Job, accepts: Commit -> bool, run: Run, m: nat, k: nat, i: nat) returns (p: nat)
    requires j.size > 0 && Committed(j, accepts, run, m)
    requires k < |run.commits| && i < |run.commits[k].rows|
    ensures i < j.size && p == k * j.size + i && p < |j.records|
    ensures Preparable(j.records[p], j.cols, j.loader.Dashboard?)
    ensures run.commits[k].rows[i] == FileRow(j.loader, j.table, j.cols, j.records, p)
  {
    assert PlannedRows(j, k).Some? && run.commits[k] == Commit(j.sql, PlannedRows(j, k).value);
    p := PlannedRowIsFileRow(j, k, i);
  }

  /** Row `i` of the planned batch `k` is the record at file position `k*b + i`, prepared. */
  lemma PlannedRowIsFileRow(j: Job, k: nat, i: nat) returns (p: nat)
    requires j.size > 0 && k < |Batches(j)| && PlannedRows(j, k).Some? && i < |PlannedRows(j, k).value|
    ensures i < j.size && p == k * j.size + i && p < |j.records|
    ensures Preparable(j.records[p], j.cols, j.loader.Dashboard?)
    ensures PlannedRows(j, k).value[i] == FileRow(j.loader, j.table, j.cols, j.records, p)
  {
    var chunk, start := Batches(j)[k], k * j.size;
    var prepared := PrepareAll(chunk, j.cols, j.loader.Dashboard?).value;
    assert PlannedRows(j, k).value == WithIds(prepared, j.table, start);
    ChunkElement(j.records, j.size, k, i);
    p := start + i;
    assert chunk[i] == j.records[p];
    assert prepared[i] == Prepare(j.records[p], j.cols, j.loader.Dashboard?);
  }

  /**
   * In the special table, a committed row's `id` is the composite id of its
   * prepared record `x` at its 1-based file position `p + 1`.
   */
  lemma CommittedRowId(j: Job, accepts: Commit -> bool, run: Run, m: nat, k: nat, i: nat) returns (p: nat, x: Row)
    requires j.size > 0 && j.table == SpecialTable && Committed(j, accepts, run, m)
    requires k < |run.commits| && i < |run.commits[k].rows|
    ensures i < j.size && p == k * j.size + i && p < |j.records|
    ensures Preparable(j.records[p], j.cols, j.loader.Dashboard?) && x == Prepare(j.records[p], j.cols, j.loader.Dashboard?)
    ensures "id" in run.commits[k].rows[i] && run.commits[k].rows[i]["id"] == Some(CompositeId(x, p + 1))
  {
    p := CommittedRowIsFileRow(j, accepts, run, m, k, i);
    x := Prepare(j.records[p], j.cols, j.loader.Dashboard?);
    IdOfFileRow(j.loader, j.records, j.cols, p, x, run.commits[k].rows[i]);
  }

  lemma IdOfFileRow(l: Loader, records: seq<Value>, cols: seq<string>, p: nat, x: Row, r: Row)
    requires p < |records| && Preparable(records[p], cols, l.Dashboard?)
    requires x == Prepare(records[p], cols, l.Dashboard?)
    requires r == FileRow(l, SpecialTable, cols, records, p)
    ensures "id" in r && r["id"] == Some(CompositeId(x, p + 1))
  {
  }

  /** Different file positions never give two committed rows the same composite id. */
  lemma CompositeIdsDistinct(j: Job, accepts: Commit -> bool, run: Run, m: nat, k1: nat, i1: nat, k2: nat, i2: nat)
    requires j.size > 0 && j.table == SpecialTable && Committed(j, accepts, run, m)
    requires k1 < |run.commits| && i1 < |run.commits[k1].rows|
    requires k2 < |run.commits| && i2 < |run.commits[k2].rows|
    requires (k1, i1) != (k2, i2)
    ensures "id" in run.commits[k1].rows[i1] && "id" in run.commits[k2].rows[i2]
    ensures run.commits[k1].rows[i1]["id"] != run.commits[k2].rows[i2]["id"]
  {
    var p1, x1 := CommittedRowId(j, accepts, run, m, k1, i1);
    var p2, x2 := CommittedRowId(j, accepts, run, m, k2, i2);
    DistinctPositions(j.size, k1, i1, k2, i2);
    CompositeIdDeterminesPosition(x1, p1 + 1, x2, p2 + 1);
  }

  /** Position `i < b` of batch `k` is `k*b + i`: two different pairs give two different positions. */
  lemma DistinctPositions(b: int, k1: nat, i1: nat, k2: nat, i2: nat)
    requires b > 0 && i1 < b && i2 < b && (k1, i1) != (k2, i2)
    ensures k1 * b + i1 != k2 * b + i2
  {
    if k1 < k2 {
      MulMonotone(k1 + 1, k2, b);
    } else if k2 < k1 {
      MulMonotone(k2 + 1, k1, b);
    }
  }

  /**
   * Every committed row has a value for each named parameter of its INSERT:
   * the table's columns, and `id` for the special table.
   */
  lemma RowsBindEveryParameter(j: Job, accepts: Commit -> bool, run: Run, m: nat, k: nat, i: nat)
    requires j.size > 0 && Committed(j, accepts, run, m)
    requires k < |run.commits| && i < |run.commits[k].rows|
    ensures run.commits[k].sql == j.sql
    ensures forall t :: t in Targets(j.loader, j.table, j.cols) && t.value != CurrentTimestamp ==>
      t.value == NamedParam(t.column) && t.column in run.commits[k].rows[i]
  {
    var p := CommittedRowIsFileRow(j, accepts, run, m, k, i);
    var row := run.commits[k].rows[i];
    var prepared := Prepare(j.records[p], j.cols, j.loader.Dashboard?);
    assert forall c :: c in j.cols ==> c in prepared;
    forall t | t in Targets(j.loader, j.table, j.cols) && t.value != CurrentTimestamp
      ensures t.value == NamedParam(t.column) && t.column in row
    {
      if t in IdTargets(j.table) {
      } else if t in ColumnTargets(j.cols) {
        var x :| 0 <= x < |j.cols| && ColumnTargets(j.cols)[x] == t;
      }
    }
  }

  // ------------------------------------------------------- the loops themselves

  /**
   * `prepare_record_data`: the columns one at a time; `Err` where `column in
   * record` or `record[column]` raises.
   */
  method PrepareRecordData(record: Value, cols: seq<string>, blankIsNull: bool) returns (r: Result<Row, ()>)
    ensures r.Ok? <==> Preparable(record, cols, blankIsNull)
    ensures r.Ok? ==> r.value == Prepare(record, cols, blankIsNull)
  {
    var prepared: Row := map[];
    for i := 0 to |cols|
      invariant forall c :: c in cols[..i] ==> Cell(record, c, blankIsNull).Ok?
      invariant prepared == map c | c in cols[..i] :: Cell(record, c, blankIsNull).value
    {
      var column := cols[i];
      assert cols[..i + 1] == cols[..i] + [column];
      var present := PyIn(column, record);
      if present.None? {
        assert Cell(record, column, blankIsNull).Err? && column in cols;
        return Err(());
      }
      if present.value {
        var value := Subscript(record, column);
        if value.None? {
          assert Cell(record, column, blankIsNull).Err? && column in cols;
          return Err(());
        }
        prepared := prepared[column := ColumnText(value.value, blankIsNull)];
      } else {
        prepared := prepared[column := None];
      }
    }
    assert cols[..|cols|] == cols;
    return Ok(prepared);
  }

  /** `batch_data`: every record of the batch prepared, in order; `None` once one raises. */
  method PrepareBatch(batch: seq<Value>, cols: seq<string>, blankIsNull: bool) returns (data: Option<seq<Row>>)
    ensures data == PrepareAll(batch, cols, blankIsNull)
  {
    var rows: seq<Row> := [];
    for i := 0 to |batch|
      invariant |rows| == i
      invariant forall m :: 0 <= m < i ==>
        Preparable(batch[m], cols, blankIsNull) && rows[m] == Prepare(batch[m], cols, blankIsNull)
    {
      var prepared := PrepareRecordData(batch[i], cols, blankIsNull);
      if prepared.Err? {
        return None;
      }
      rows := rows + [prepared.value];
    }
    assert PrepareAll(batch, cols, blankIsNull).Some?;
    assert PrepareAll(batch, cols, blankIsNull).value == rows;
    return Some(rows);
  }

  /** The special table's loop `data['id'] = ...` over a batch starting at file offset `start`. */
  method AssignIds(data: seq<Row>, table: string, start: nat) returns (rows: seq<Row>)
    ensures rows == WithIds(data, table, start)
  {
    rows := data;
    if table == SpecialTable {
      for m := 0 to |rows|
        invariant |rows| == |data|
        invariant forall x :: 0 <= x < m ==> rows[x] == data[x]["id" := Some(CompositeId(data[x], start + x + 1))]
        invariant forall x :: m <= x < |rows| ==> rows[x] == data[x]
      {
        rows := rows[m := rows[m]["id" := Some(CompositeId(rows[m], start + m + 1))]];
      }
    }
  }

  /**
   * The batch loop of `insert_batch` for the loaders without a stats writer:
   * the run it produces is the one `Load` describes.
   */
  method RunBatches(l: Loader, table: string, cols: seq<string>, records: seq<Value>, b: int,
                    accepts: Commit -> bool) returns (run: Run)
    requires !l.Cli?
    ensures run == Load(l, table, cols, records, b, accepts, true)
  {
    if |records| == 0 || |cols| == 0 {
      return NoRun;
    }
    if b == 0 {
      return NoRun.(failure := Some(ZeroBatchSize));
    }
    if b < 0 {
      return NoRun;
    }
    var sql := InsertSql(l, table, cols);
    ghost var j := JobFor(l, table, cols, records, b);
    run := RunJob(j, l, table, cols, records, b, sql, accepts);
  }

  /** The loop itself, over the batches of a job with a positive batch size. */
  method RunJob(ghost j: Job, l: Loader, table: string, cols: seq<string>, records: seq<Value>, b: nat,
                sql: string, accepts: Commit -> bool) returns (run: Run)
    requires j.loader == l && j.table == table && j.cols == cols && j.records == records
    requires j.size == b && j.sql == sql && b > 0
    ensures run == RunFrom(j, accepts, true, 0, NoRun)
  {
    ChunkCount(records, b);
    run := NoRun;
    var i := 0;
    ghost var k := 0;
    while i < |records|
      invariant k <= |Batches(j)| && i == k * b
      invariant i < |records| <==> k < |Batches(j)|
      invariant run.failure.None?
      invariant RunFrom(j, accepts, true, k, run) == RunFrom(j, accepts, true, 0, NoRun)
      decreases |records| - i
    {
      var next, _ := SendBatch(j, l, table, cols, records, b, sql, accepts, true, k, i, run);
      if next.failure.Some? {
        return next;
      }
      run := next;
      AdvanceBatch(records, b, k);
      i, k := i + b, k + 1;
    }
  }

  /**
   * One pass of the loop body for batch `k` at offset `i = k*b`, up to the
   * commit: either the batch is prepared, sent and committed (`c`), and
   * `total_inserted` and the batch stats grow, or the pass raises and the run
   * stops with that error. What the command-line loader's stats writer does
   * next decides whether the loop goes on.
   */
  method SendBatch(ghost j: Job, l: Loader, table: string, cols: seq<string>, records: seq<Value>,
                   b: nat, sql: string, accepts: Commit -> bool, ghost appendable: bool, ghost k: nat, i: nat,
                   run: Run)
    returns (next: Run, c: Commit)
    requires j.loader == l && j.table == table && j.cols == cols && j.records == records
    requires j.size == b && j.sql == sql
    requires b > 0 && k < |Batches(j)| && i == k * b
    requires run.failure.None?
    ensures next.failure.Some? ==> next == RunFrom(j, accepts, appendable, k, run) == run.(failure := next.failure)
    ensures next.failure.Some? ==> next.failure.value.RecordNotIndexable? || next.failure.value.DatabaseRejected?
    ensures next.failure.None? ==>
      c.sql == sql && PlannedRows(j, k) == Some(c.rows) && accepts(c) &&
      next == Run(run.commits + [c],
                  if l.Plain? then run.stats else run.stats + [BatchStat(k + 1, table, |c.rows|, run.total + |c.rows|)],
                  run.total + |c.rows|, None) &&
      RunFrom(j, accepts, appendable, k, run) ==
        if l.Cli? && !appendable then next.(failure := Some(StatsNotAppendable(k + 1)))
        else RunFrom(j, accepts, appendable, k + 1, next)
  {
    BatchNumberAt(k, b);
    var batchNumber := i / b + 1;
    var planned := BatchRows(j, l, table, cols, records, b, k, i);
    if planned.None? {
      return run.(failure := Some(RecordNotIndexable(batchNumber))), Commit(sql, []);
    }
    var rows := planned.value;
    c := Commit(sql, rows);
    if !accepts(c) {
      return run.(failure := Some(DatabaseRejected(batchNumber))), c;
    }
    var total := run.total + |rows|;
    next := Run(run.commits + [c],
                if l.Plain? then run.stats else run.stats + [BatchStat(batchNumber, table, |rows|, total)],
                total, None);
    RunFromAccepted(j, accepts, appendable, k, run, rows);
  }

  /**
   * One pass of the loop body before `executemany`: batch `k` sliced from
   * offset `i = k*b`, its records prepared, and the special table's ids added.
   */
  method BatchRows(ghost j: Job, l: Loader, table: string, cols: seq<string>, records: seq<Value>, b: nat,
                   ghost k: nat, i: nat) returns (rows: Option<seq<Row>>)
    requires j.loader == l && j.table == table && j.cols == cols && j.records == records && j.size == b
    requires b > 0 && k < |Batches(j)| && i == k * b
    ensures rows == PlannedRows(j, k)
  {
    ChunkAt(records, b, k);
    var batch := records[i .. Min(i + b, |records|)];
    var data := PrepareBatch(batch, cols, l.Dashboard?);
    BatchIsPlanned(j, k, batch, data);
    if data.None? {
      return None;
    }
    var withIds := AssignIds(data.value, table, i);
    return Some(withIds);
  }

  /** The batch the loop slices and prepares at offset `k*b` is batch `k` of the plan. */
  lemma BatchIsPlanned(j: Job, k: nat, batch: seq<Value>, data: Option<seq<Row>>)
    requires j.size > 0 && k < |Batches(j)| && batch == Batches(j)[k]
    requires data == PrepareAll(batch, j.cols, j.loader.Dashboard?)
    ensures PlannedRows(j, k) == if data.None? then None else Some(WithIds(data.value, j.table, k * j.size))
  {
  }

  /**
   * An accepted batch: the loop goes on with that batch committed, unless the
   * command-line loader cannot write its stat.
   */
  lemma RunFromAccepted(j: Job, accepts: Commit -> bool, appendable: bool, k: nat, acc: Run, rows: seq<Row>)
    requires j.size > 0 && k < |Batches(j)| && PlannedRows(j, k) == Some(rows)
    requires accepts(Commit(j.sql, rows))
    ensures var next := Run(acc.commits + [Commit(j.sql, rows)],
        if j.loader.Plain? then acc.stats else acc.stats + [BatchStat(k + 1, j.table, |rows|, acc.total + |rows|)],
        acc.total + |rows|, None);
      RunFrom(j, accepts, appendable, k, acc) ==
        if j.loader.Cli? && !appendable then next.(failure := Some(StatsNotAppendable(k + 1)))
        else RunFrom(j, accepts, appendable, k + 1, next)
  {
  }

  /** Moving on by `b` records moves on by one batch. */
  lemma AdvanceBatch<T>(s: seq<T>, b: nat, k: nat)
    requires b > 0 && k < |Chunks(s, b)|
    ensures k * b + b == (k + 1) * b
    ensures k * b + b < |s| <==> k + 1 < |Chunks(s, b)|
  {
    ChunkCount(s, b);
    if k + 1 < |Chunks(s, b)| {
      MulMonotone(k + 1, |Chunks(s, b)| - 1, b);
    } else {
      assert (k + 1) * b == |Chunks(s, b)| * b;
    }
  }
}
