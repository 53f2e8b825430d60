/**
 * What `DatabaseManager` (services/db_manager.py) derives from its
 * configuration: the `CREATE TABLE` text for the schema, the `INSERT`
 * statement and its parameter tuples for a batch of records, one connection
 * setting per configured cloud, and the result a batch insert reports.
 *
 * A Python exception on the way (a missing key, `.items()` or `.get()` on
 * something that is not a dict) is the `Err` of a `Result`.
 */
module DbManager {
  import opened Common
  import opened Strings
  import opened Json

  const PrimaryKey: string := " PRIMARY KEY"
  const NotNull: string := " NOT NULL"
  const DefaultKeyword: string := " DEFAULT "
  const NowCall: string := "NOW()"
  const Serial: string := "SERIAL"
  const MetadataField: string := "metadata"

  // ---------------------------------------------------------------------------
  // CREATE TABLE

  /**
   * The column constraint of a field: `primary_key` wins, and `NOT NULL`
   * comes only from a `nullable` that is present and falsy.
   */
  function Constraint(cfg: Dict): string {
    if Truthy(GetOr(cfg, "primary_key", Null)) then PrimaryKey
    else if !Truthy(GetOr(cfg, "nullable", Bool(true))) then NotNull
    else ""
  }

  /** The `DEFAULT` clause of a field, if it has a default. */
  function DefaultClause(cfg: Dict): string {
    match Get(cfg, "default")
      case None => ""
      case Some(v) =>
        if v == Str(NowCall) then DefaultKeyword + NowCall
        else if v.Bool? then DefaultKeyword + (if v.b then "TRUE" else "FALSE")
        else DefaultKeyword + "'" + Stringify(v) + "'"
  }

  /** One line of the column list; a field configuration without `type` raises. */
  function FieldDef(name: string, cfg: Value): Result<string, ()> {
    match Subscript(cfg, "type")
      case None => Err(())
      case Some(t) => Ok("    " + name + " " + Stringify(t) + Constraint(cfg.entries) + DefaultClause(cfg.entries))
  }

  /** `FieldDef` of one `(field_name, field_config)` item. */
  function FieldItem(e: Entry): Result<string, ()> {
    FieldDef(e.key, e.val)
  }

  /** The column definitions of `fields`, in order, up to the first field that raises. */
  function Definitions(fields: Dict): Result<seq<string>, ()> {
    Traverse(fields, FieldItem)
  }

  /** One definition per field, in order; a field that raises makes the whole list raise. */
  lemma DefinitionsSpec(fields: Dict)
    ensures Definitions(fields).Ok? <==> forall i :: 0 <= i < |fields| ==> FieldDef(fields[i].key, fields[i].val).Ok?
    ensures Definitions(fields).Ok? ==>
      |Definitions(fields).value| == |fields| &&
      forall i :: 0 <= i < |fields| ==> Definitions(fields).value[i] == FieldDef(fields[i].key, fields[i].val).value
  {
    TraverseSpec(fields, FieldItem);
  }

  /**
   * `get_table_creation_sql()`: the header, the definitions one per line
   * separated by commas, and the closing parenthesis.
   */
  function CreationSql(schema: Dict): Result<string, ()> {
    match Get(schema, "table_name")
      case None => Err(())
      case Some(table) =>
        match Get(schema, "fields")
          case None => Err(())
          case Some(fs) =>
            if !fs.Obj? then Err(())
            else match Definitions(fs.entries)
              case Err(_) => Err(())
              case Ok(ds) =>
                Ok(Join(["CREATE TABLE IF NOT EXISTS " + Stringify(table) + " (", Join(ds, ",\n"), ");"], "\n"))
  }

  /**
   * The creation SQL exists exactly when the schema has a `table_name` and a
   * dict of `fields` each with a `type`; it then holds one definition per
   * field, in the schema's order.
   */
  lemma CreationSqlSpec(schema: Dict)
    ensures CreationSql(schema).Ok? <==>
      HasKey(schema, "table_name") && HasKey(schema, "fields") &&
      Get(schema, "fields").value.Obj? &&
      forall i :: 0 <= i < |Get(schema, "fields").value.entries| ==>
        Subscript(Get(schema, "fields").value.entries[i].val, "type").Some?
    ensures CreationSql(schema).Ok? ==>
      var fs := Get(schema, "fields").value.entries;
      var ds := Definitions(fs).value;
      |ds| == |fs| &&
      CreationSql(schema).value ==
        "CREATE TABLE IF NOT EXISTS " + Stringify(Get(schema, "table_name").value) + " (" + "\n" + Join(ds, ",\n") + "\n" + ");"
  {
    if HasKey(schema, "table_name") && HasKey(schema, "fields") && Get(schema, "fields").value.Obj? {
      var fs := Get(schema, "fields").value.entries;
      DefinitionsSpec(fs);
      if Definitions(fs).Ok? {
        var header := "CREATE TABLE IF NOT EXISTS " + Stringify(Get(schema, "table_name").value) + " (";
        JoinThree(header, Join(Definitions(fs).value, ",\n"), ");", "\n");
      } else {
        var i :| 0 <= i < |fs| && FieldDef(fs[i].key, fs[i].val).Err?;
      }
    }
  }

  /** `sep.join([a, b, c])`. */
  lemma JoinThree(a: string, b: string, c: string, sep: string)
    ensures Join([a, b, c], sep) == a + sep + b + sep + c
  {
    var parts := [a, b, c];
    assert parts[1..] == [b, c];
    assert [b, c][1..] == [c];
    assert Join([b, c], sep) == b + sep + c;
    assert Join(parts, sep) == a + sep + (b + sep + c);
  }

  /**
   * The constraint: `PRIMARY KEY` exactly when `primary_key` is truthy;
   * otherwise `NOT NULL` exactly when `nullable` is given and falsy, so a
   * field without `nullable` never gets it.
   */
  lemma ConstraintSpec(cfg: Dict)
    ensures Constraint(cfg) == PrimaryKey <==> Truthy(GetOr(cfg, "primary_key", Null))
    ensures Constraint(cfg) == NotNull <==>
      !Truthy(GetOr(cfg, "primary_key", Null)) && HasKey(cfg, "nullable") && !Truthy(Get(cfg, "nullable").value)
    ensures !HasKey(cfg, "nullable") && !Truthy(GetOr(cfg, "primary_key", Null)) ==> Constraint(cfg) == ""
  {
    assert |PrimaryKey| != |NotNull|;
  }

  /**
   * The default: `NOW()` goes in unquoted, a boolean as `TRUE` / `FALSE`,
   * anything else single-quoted as Python renders it; no `default` key, no
   * clause.
   */
  lemma DefaultClauseSpec(cfg: Dict)
    ensures DefaultClause(cfg) == "" <==> !HasKey(cfg, "default")
    ensures Get(cfg, "default") == Some(Str(NowCall)) ==> DefaultClause(cfg) == " DEFAULT NOW()"
    ensures Get(cfg, "default") == Some(Bool(true)) ==> DefaultClause(cfg) == " DEFAULT TRUE"
    ensures Get(cfg, "default") == Some(Bool(false)) ==> DefaultClause(cfg) == " DEFAULT FALSE"
    ensures HasKey(cfg, "default") && Get(cfg, "default").value != Str(NowCall) && !Get(cfg, "default").value.Bool? ==>
      DefaultClause(cfg) == " DEFAULT '" + Stringify(Get(cfg, "default").value) + "'"
  {
  }

  /** `get_table_creation_sql()`; `for field_name, field_config in fields.items()` appends one definition per field. */
  method GetTableCreationSql(schema: Dict) returns (r: Result<string, ()>)
    ensures r == CreationSql(schema)
  {
    var table := Get(schema, "table_name");
    if table.None? {
      return Err(());
    }
    var fields := Get(schema, "fields");
    if fields.None? || !fields.value.Obj? {
      return Err(());
    }
    var fs := fields.value.entries;
    var defs: seq<string> := [];
    var i := 0;
    while i < |fs|
      invariant i <= |fs|
      invariant Traverse(fs[..i], FieldItem) == Ok(defs)
      decreases |fs| - i
    {
      var d := FieldDef(fs[i].key, fs[i].val);
      TraverseStep(fs, FieldItem, i);
      if d.Err? {
        DefinitionsSpec(fs);
        return Err(());
      }
      defs := defs + [d.value];
      i := i + 1;
    }
    assert fs[..i] == fs;
    r := Ok(Join(["CREATE TABLE IF NOT EXISTS " + Stringify(table.value) + " (", Join(defs, ",\n"), ");"], "\n"));
  }

  // ---------------------------------------------------------------------------
  // INSERT

  /** A field the database fills itself: its `type` is `SERIAL`. */
  predicate IsSerial(cfg: Value) {
    Subscript(cfg, "type") == Some(Str(Serial))
  }

  /** The insert columns: the fields of `fields` whose type is not `SERIAL`; a field without `type` raises. */
  function InsertFields(fields: Dict): (r: Result<seq<string>, ()>)
    ensures r.Ok? <==> forall i :: 0 <= i < |fields| ==> Subscript(fields[i].val, "type").Some?
    decreases |fields|
  {
    if |fields| == 0 then Ok([])
    else
      var n := |fields| - 1;
      match InsertFields(fields[..n])
        case Err(_) => Err(())
        case Ok(ns) =>
          match Subscript(fields[n].val, "type")
            case None => Err(())
            case Some(t) => Ok(if t != Str(Serial) then ns + [fields[n].key] else ns)
  }

  /** A name is an insert column exactly when some field of that name is not `SERIAL`. */
  lemma InsertFieldsMembers(fields: Dict, name: string)
    requires InsertFields(fields).Ok?
    ensures name in InsertFields(fields).value <==>
      exists i :: 0 <= i < |fields| && fields[i].key == name && !IsSerial(fields[i].val)
  {
    InsertFieldsSound(fields, name);
    InsertFieldsComplete(fields, name);
  }

  lemma {:induction false} InsertFieldsSound(fields: Dict, name: string)
    requires InsertFields(fields).Ok?
    ensures name in InsertFields(fields).value ==>
      exists i :: 0 <= i < |fields| && fields[i].key == name && !IsSerial(fields[i].val)
    decreases |fields|
  {
    if |fields| > 0 && name in InsertFields(fields).value {
      var n := |fields| - 1;
      var init := fields[..n];
      var ns := InsertFields(init).value;
      assert InsertFields(fields).value == if IsSerial(fields[n].val) then ns else ns + [fields[n].key];
      if name in ns {
        InsertFieldsSound(init, name);
        var i :| 0 <= i < n && init[i].key == name && !IsSerial(init[i].val);
        assert fields[i] == init[i];
      } else {
        assert fields[n].key == name && !IsSerial(fields[n].val);
      }
    }
  }

  lemma {:induction false} InsertFieldsComplete(fields: Dict, name: string)
    requires InsertFields(fields).Ok?
    ensures (exists i :: 0 <= i < |fields| && fields[i].key == name && !IsSerial(fields[i].val)) ==>
      name in InsertFields(fields).value
    decreases |fields|
  {
    if exists i :: 0 <= i < |fields| && fields[i].key == name && !IsSerial(fields[i].val) {
      var i :| 0 <= i < |fields| && fields[i].key == name && !IsSerial(fields[i].val);
      var n := |fields| - 1;
      var init := fields[..n];
      var ns := InsertFields(init).value;
      assert InsertFields(fields).value == if IsSerial(fields[n].val) then ns else ns + [fields[n].key];
      if i < n {
        assert init[i] == fields[i];
        assert init[i].key == name && !IsSerial(init[i].val);
        InsertFieldsComplete(init, name);
        assert name in ns;
      } else {
        assert !IsSerial(fields[n].val);
      }
    }
  }


  /** The insert columns keep the schema's order: those of `a` come before those of `b`. */
  lemma {:induction false} InsertFieldsConcat(a: Dict, b: Dict)
    requires InsertFields(a + b).Ok?
    ensures InsertFields(a).Ok? && InsertFields(b).Ok?
    ensures InsertFields(a + b).value == InsertFields(a).value + InsertFields(b).value
    decreases |b|
  {
    if |b| == 0 {
      assert a + b == a;
    } else {
      var n := |b| - 1;
      assert (a + b)[..|a + b| - 1] == a + b[..n];
      assert (a + b)[|a + b| - 1] == b[n];
      InsertFieldsConcat(a, b[..n]);
      var t := Subscript(b[n].val, "type").value;
      if t != Str(Serial) {
        ConcatAssoc(InsertFields(a).value, InsertFields(b[..n]).value, [b[n].key]);
      }
    }
  }

  /** `", ".join([f"${i+1}" for i in range(n)])`'s items. */
  function Placeholders(n: nat): (ps: seq<string>)
    ensures |ps| == n
  {
    seq(n, i requires 0 <= i < n => "$" + NatToString(i + 1))
  }

  /** Placeholder `i` is `$` followed by `i + 1`, and no two are alike. */
  lemma PlaceholdersSpec(n: nat, i: nat, j: nat)
    requires i < n && j < n && i != j
    ensures Placeholders(n)[i] == "$" + NatToString(i + 1)
    ensures Placeholders(n)[i] != Placeholders(n)[j]
  {
    var ps := Placeholders(n);
    if ps[i] == ps[j] {
      assert ps[i][1..] == NatToString(i + 1);
      assert ps[j][1..] == NatToString(j + 1);
      NatToStringInjective(i + 1, j + 1);
    }
  }

  /** One tuple element: `record.get(field)`, with a dict `metadata` serialised by `json.dumps`. */
  function Param(record: Dict, field: string, dumps: Value -> string): Value {
    var v := GetOr(record, field, Null);
    if field == MetadataField && v.Obj? then Str(dumps(v)) else v
  }

  /** The parameter tuple of one record; `record.get` on a record that is not a dict raises. */
  function ParamTuple(record: Value, fields: seq<string>, dumps: Value -> string): (r: Result<seq<Value>, ()>)
    ensures r.Ok? <==> |fields| == 0 || record.Obj?
    ensures r.Ok? ==> |r.value| == |fields|
  {
    if |fields| == 0 then Ok([])
    else if !record.Obj? then Err(())
    else Ok(seq(|fields|, j requires 0 <= j < |fields| => Param(record.entries, fields[j], dumps)))
  }

  /** The tuples of `records`, in order, up to the first record that raises. */
  function Params(records: seq<Value>, fields: seq<string>, dumps: Value -> string): Result<seq<seq<Value>>, ()> {
    Traverse(records, r => ParamTuple(r, fields, dumps))
  }

  /** One tuple per record, in order; a record that raises makes the whole list raise. */
  lemma ParamsSpec(records: seq<Value>, fields: seq<string>, dumps: Value -> string)
    ensures Params(records, fields, dumps).Ok? <==> forall i :: 0 <= i < |records| ==> ParamTuple(records[i], fields, dumps).Ok?
    ensures Params(records, fields, dumps).Ok? ==>
      |Params(records, fields, dumps).value| == |records| &&
      forall i :: 0 <= i < |records| ==> Params(records, fields, dumps).value[i] == ParamTuple(records[i], fields, dumps).value
  {
    TraverseSpec(records, r => ParamTuple(r, fields, dumps));
  }

  /** The statement text of `generate_insert_sql`. */
  function InsertStatement(table: Value, fields: seq<string>): string {
    "INSERT INTO " + Stringify(table) + " (" + Join(fields, ", ") + ") VALUES (" + Join(Placeholders(|fields|), ", ") + ")"
  }

  /** `generate_insert_sql(records)`: `("", [])` for no records, else the statement and one tuple per record. */
  function InsertSql(schema: Dict, records: seq<Value>, dumps: Value -> string): Result<(string, seq<seq<Value>>), ()> {
    if |records| == 0 then Ok(("", []))
    else match Get(schema, "table_name")
      case None => Err(())
      case Some(table) =>
        match Get(schema, "fields")
          case None => Err(())
          case Some(fs) =>
            if !fs.Obj? then Err(())
            else match InsertFields(fs.entries)
              case Err(_) => Err(())
              case Ok(names) =>
                match Params(records, names, dumps)
                  case Err(_) => Err(())
                  case Ok(ps) => Ok((InsertStatement(table, names), ps))
  }

  /**
   * No records give `("", [])` without reading the schema. Otherwise every
   * record gets a tuple with one element per insert column: the record's
   * value for it (`None` if absent), a dict `metadata` as its JSON text.
   */
  lemma InsertSqlSpec(schema: Dict, records: seq<Value>, dumps: Value -> string)
    ensures |records| == 0 ==> InsertSql(schema, records, dumps) == Ok(("", []))
    ensures |records| > 0 && InsertSql(schema, records, dumps).Ok? ==>
      var fs := Get(schema, "fields").value.entries;
      var names := InsertFields(fs).value;
      var (sql, ps) := InsertSql(schema, records, dumps).value;
      sql == InsertStatement(Get(schema, "table_name").value, names) &&
      |ps| == |records| &&
      forall i :: 0 <= i < |records| ==>
        (|ps[i]| == |names| && (|names| > 0 ==> records[i].Obj?) &&
         forall j :: 0 <= j < |names| ==> ps[i][j] == Param(records[i].entries, names[j], dumps))
  {
    if |records| > 0 && InsertSql(schema, records, dumps).Ok? {
      var names := InsertFields(Get(schema, "fields").value.entries).value;
      ParamsSpec(records, names, dumps);
    }
  }

  /** A parameter is the record's own value, except a dict under `metadata`, which becomes its JSON text. */
  lemma ParamSpec(record: Dict, field: string, dumps: Value -> string)
    ensures !HasKey(record, field) ==> Param(record, field, dumps) == Null
    ensures HasKey(record, field) && (field != MetadataField || !Get(record, field).value.Obj?) ==>
      Param(record, field, dumps) == Get(record, field).value
    ensures HasKey(record, field) && field == MetadataField && Get(record, field).value.Obj? ==>
      Param(record, field, dumps) == Str(dumps(Get(record, field).value))
  {
  }

  /** `generate_insert_sql(records)`: a loop collecting the columns, then one over the records. */
  method GenerateInsertSql(schema: Dict, records: seq<Value>, dumps: Value -> string)
    returns (r: Result<(string, seq<seq<Value>>), ()>)
    ensures r == InsertSql(schema, records, dumps)
  {
    if |records| == 0 {
      return Ok(("", []));
    }
    var table := Get(schema, "table_name");
    if table.None? {
      return Err(());
    }
    var fields := Get(schema, "fields");
    if fields.None? || !fields.value.Obj? {
      return Err(());
    }
    var names := CollectInsertFields(fields.value.entries);
    if names.Err? {
      return Err(());
    }
    var ps := CollectParams(records, names.value, dumps);
    if ps.Err? {
      return Err(());
    }
    r := Ok((InsertStatement(table.value, names.value), ps.value));
  }

  /** The loop `for field_name, field_config in fields.items()` that collects the insert columns. */
  method CollectInsertFields(fs: Dict) returns (r: Result<seq<string>, ()>)
    ensures r == InsertFields(fs)
  {
    var names: seq<string> := [];
    var i := 0;
    while i < |fs|
      invariant i <= |fs|
      invariant InsertFields(fs[..i]) == Ok(names)
      decreases |fs| - i
    {
      assert fs[..i + 1][..i] == fs[..i];
      var t := Subscript(fs[i].val, "type");
      if t.None? {
        assert !InsertFields(fs).Ok?;
        return Err(());
      }
      if t.value != Str(Serial) {
        names := names + [fs[i].key];
      }
      i := i + 1;
    }
    assert fs[..i] == fs;
    r := Ok(names);
  }

  /** The loop `for record in records` that builds one tuple per record. */
  method CollectParams(records: seq<Value>, names: seq<string>, dumps: Value -> string)
    returns (r: Result<seq<seq<Value>>, ()>)
    ensures r == Params(records, names, dumps)
  {
    var ps: seq<seq<Value>> := [];
    var i := 0;
    while i < |records|
      invariant i <= |records|
      invariant Params(records[..i], names, dumps) == Ok(ps)
      decreases |records| - i
    {
      TraverseStep(records, r => ParamTuple(r, names, dumps), i);
      var p := BuildTuple(records[i], names, dumps);
      if p.Err? {
        TraverseFirstError(records, r => ParamTuple(r, names, dumps), i);
        return Err(());
      }
      ps := ps + [p.value];
      i := i + 1;
    }
    assert records[..i] == records;
    r := Ok(ps);
  }

  /** The inner loop `for field_name in insert_fields` that builds one record's tuple. */
  method BuildTuple(record: Value, names: seq<string>, dumps: Value -> string) returns (r: Result<seq<Value>, ()>)
    ensures r == ParamTuple(record, names, dumps)
  {
    var tuple: seq<Value> := [];
    var j := 0;
    while j < |names|
      invariant j <= |names|
      invariant |tuple| == j
      invariant j > 0 ==> record.Obj?
      invariant forall k :: 0 <= k < j ==> tuple[k] == Param(record.entries, names[k], dumps)
      decreases |names| - j
    {
      if !record.Obj? {
        return Err(());
      }
      tuple := tuple + [Param(record.entries, names[j], dumps)];
      j := j + 1;
    }
    if |names| > 0 {
      assert tuple == ParamTuple(record, names, dumps).value;
    }
    r := Ok(tuple);
  }

  // ---------------------------------------------------------------------------
  // Connections

  /** A `DatabaseConnection`: the settings as configured, untyped as YAML gives them. */
  datatype Connection = Connection(
    cloud: string, name: Value, host: Value, port: Value, database: Value,
    user: Value, password: Value, sslMode: Value, connectionTimeout: Value)

  /** The connection of one cloud, every missing setting filled with its default. */
  function ConnectionFor(cloud: string, cfg: Dict): Connection {
    Connection(
      cloud,
      GetOr(cfg, "name", Str(AsciiUpper(cloud) + " PostgreSQL")),
      GetOr(cfg, "host", Str("localhost")),
      GetOr(cfg, "port", Int(5432)),
      GetOr(cfg, "database", Str("test_" + cloud)),
      GetOr(cfg, "user", Str("postgres")),
      GetOr(cfg, "password", Str("password")),
      GetOr(cfg, "ssl_mode", Str("require")),
      GetOr(cfg, "connection_timeout", Int(30)))
  }

  /** The connection of one `(cloud, config)` item; `config.get` on something that is not a dict raises. */
  function ConnectionItem(e: Entry): Result<Connection, ()> {
    if e.val.Obj? then Ok(ConnectionFor(e.key, e.val.entries)) else Err(())
  }

  /** The connections of the configured clouds, in order; a cloud whose settings are not a dict raises. */
  function Connections(clouds: Dict): Result<seq<Connection>, ()> {
    Traverse(clouds, ConnectionItem)
  }

  /** `self.db_config.get('clouds', {})`: no section means no connections; one that is not a dict raises. */
  function ConnectionsOf(dbConfig: Dict): Result<seq<Connection>, ()> {
    match GetOr(dbConfig, "clouds", Obj([]))
      case Obj(clouds) => Connections(clouds)
      case _ => Err(())
  }

  /**
   * One connection per configured cloud, in order and named after its key;
   * without a `clouds` section there are none.
   */
  lemma ConnectionsOfSpec(dbConfig: Dict)
    ensures !HasKey(dbConfig, "clouds") ==> ConnectionsOf(dbConfig) == Ok([])
    ensures ConnectionsOf(dbConfig).Ok? <==>
      !HasKey(dbConfig, "clouds") ||
      (Get(dbConfig, "clouds").value.Obj? &&
       forall i :: 0 <= i < |Get(dbConfig, "clouds").value.entries| ==> Get(dbConfig, "clouds").value.entries[i].val.Obj?)
    ensures ConnectionsOf(dbConfig).Ok? && HasKey(dbConfig, "clouds") ==>
      Get(dbConfig, "clouds").value.Obj? &&
      var clouds := Get(dbConfig, "clouds").value.entries;
      |ConnectionsOf(dbConfig).value| == |clouds| &&
      forall i :: 0 <= i < |clouds| ==>
        clouds[i].val.Obj? && ConnectionsOf(dbConfig).value[i] == ConnectionFor(clouds[i].key, clouds[i].val.entries)
  {
    if HasKey(dbConfig, "clouds") && Get(dbConfig, "clouds").value.Obj? {
      TraverseSpec(Get(dbConfig, "clouds").value.entries, ConnectionItem);
    }
  }

  /**
   * A setting the cloud's configuration leaves out takes its default:
   * localhost, port 5432, database `test_<cloud>`, user postgres, SSL mode
   * require, a 30-second timeout; a given setting is kept as it is.
   */
  lemma ConnectionDefaults(cloud: string, cfg: Dict)
    ensures var c := ConnectionFor(cloud, cfg);
      c.cloud == cloud &&
      (!HasKey(cfg, "host") ==> c.host == Str("localhost")) &&
      (!HasKey(cfg, "port") ==> c.port == Int(5432)) &&
      (!HasKey(cfg, "database") ==> c.database == Str("test_" + cloud)) &&
      (!HasKey(cfg, "user") ==> c.user == Str("postgres")) &&
      (!HasKey(cfg, "ssl_mode") ==> c.sslMode == Str("require")) &&
      (!HasKey(cfg, "connection_timeout") ==> c.connectionTimeout == Int(30)) &&
      (HasKey(cfg, "host") ==> c.host == Get(cfg, "host").value) &&
      (HasKey(cfg, "port") ==> c.port == Get(cfg, "port").value)
  {
  }

  /** `_setup_connections()`: the loop over `clouds_config.items()`. */
  method SetupConnections(dbConfig: Dict) returns (r: Result<seq<Connection>, ()>)
    ensures r == ConnectionsOf(dbConfig)
  {
    var section := GetOr(dbConfig, "clouds", Obj([]));
    if !section.Obj? {
      return Err(());
    }
    var clouds := section.entries;
    var cs: seq<Connection> := [];
    var i := 0;
    while i < |clouds|
      invariant i <= |clouds|
      invariant Traverse(clouds[..i], ConnectionItem) == Ok(cs)
      decreases |clouds| - i
    {
      TraverseStep(clouds, ConnectionItem, i);
      if !clouds[i].val.Obj? {
        TraverseSpec(clouds, ConnectionItem);
        return Err(());
      }
      cs := cs + [ConnectionFor(clouds[i].key, clouds[i].val.entries)];
      i := i + 1;
    }
    assert clouds[..i] == clouds;
    r := Ok(cs);
  }

  // ---------------------------------------------------------------------------
  // Batch insert

  /** An `InsertResult` without its execution time and timestamp. */
  datatype InsertResult = InsertResult(
    cloud: string, chunkId: int, recordsCount: nat, success: bool, errorMessage: Option<string>)

  /**
   * What the mock mode of `batch_insert` draws for one call: a random success
   * verdict, or an exception raised on the way (its message).
   */
  datatype MockDraw = Drawn(success: bool) | Raised(message: string)

  /** The message of a mock insert that drew a failure. */
  function MockError(cloud: string, chunkId: int): string {
    "Mock error for " + cloud + " chunk " + IntToString(chunkId)
  }

  /** `batch_insert(cloud, chunk_id, records)`; `mock` is `None` off mock mode, else the draw. */
  function BatchInsert(cloud: string, chunkId: int, records: seq<Value>, mock: Option<MockDraw>): InsertResult {
    match mock
      case None => InsertResult(cloud, chunkId, |records|, true, None)
      case Some(Drawn(ok)) => InsertResult(cloud, chunkId, |records|, ok, if ok then None else Some(MockError(cloud, chunkId)))
      case Some(Raised(m)) => InsertResult(cloud, chunkId, |records|, false, Some(m))
  }

  /**
   * A batch insert reports its cloud, its chunk id and the number of records;
   * it fails exactly when the mock mode drew a failure or raised, and then
   * carries a message. Off mock mode it always succeeds.
   */
  lemma BatchInsertSpec(cloud: string, chunkId: int, records: seq<Value>, mock: Option<MockDraw>)
    ensures var r := BatchInsert(cloud, chunkId, records, mock);
      r.cloud == cloud && r.chunkId == chunkId && r.recordsCount == |records| &&
      (r.success <==> mock.None? || mock == Some(Drawn(true))) &&
      (r.success <==> r.errorMessage.None?) &&
      (mock.Some? && mock.value.Raised? ==> r.errorMessage == Some(mock.value.message))
  {
  }

  /** `test_connection(cloud)`: the mock mode's draw, and always `True` off it. */
  function TestConnection(mock: bool, draw: bool): (r: bool)
    ensures !mock ==> r
    ensures mock ==> r == draw
  {
    !mock || draw
  }

  /** `create_table(cloud)` reports success in both modes. */
  function CreateTable(mock: bool): (r: bool)
    ensures r
  {
    true
  }
}
