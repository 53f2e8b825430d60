/**
 * The checks and the report ranking of utils/helpers.py: the structural
 * validation of a table schema and of the database configuration (each
 * returns `True` or raises at the first problem), the performance ranking of
 * `generate_performance_report`, and `calculate_percentiles`.
 */
module Helpers {
  import opened Common
  import opened Strings
  import opened Json
  import opened Sorting
  import DbManager

  /** What a validator raises. */
  datatype Raised =
    | ValueError(message: string)
      /** `'type' in cfg` (or `key in cfg`) on a value that is no container. */
    | TypeError
      /** `.items()` on a `clouds` section that is not a dict. */
    | AttributeError

  // ---------------------------------------------------------------------------
  // validate_schema_config
  // ---------------------------------------------------------------------------

  /** The keys a schema must have, in the order they are checked. */
  const SchemaRequiredKeys: seq<string> := ["table_name", "fields"]

  function MissingSchemaKey(key: string): string {
    "Missing required key in schema: " + key
  }

  const FieldsNotDict: string := "Schema fields must be a dictionary"

  function MissingType(field: string): string {
    "Field '" + field + "' is missing 'type' specification"
  }

  /** The first of `keys` that `schema` lacks. */
  function FirstMissing(schema: Dict, keys: seq<string>): (r: Option<string>)
    ensures r.None? <==> forall k :: k in keys ==> HasKey(schema, k)
    ensures r.Some? ==> r.value in keys && !HasKey(schema, r.value)
  {
    if |keys| == 0 then None
    else if !HasKey(schema, keys[0]) then Some(keys[0])
    else FirstMissing(schema, keys[1..])
  }

  /** The check of one `(field_name, field_config)` item: `'type' not in field_config`. */
  function CheckField(e: Entry): Result<(), Raised> {
    match PyIn("type", e.val)
      case None => Err(TypeError)
      case Some(found) => if found then Ok(()) else Err(ValueError(MissingType(e.key)))
  }

  /** `validate_schema_config(schema)`: `True`, or what it raises. */
  function ValidateSchema(schema: Dict): Result<bool, Raised> {
    match FirstMissing(schema, SchemaRequiredKeys)
      case Some(k) => Err(ValueError(MissingSchemaKey(k)))
      case None =>
        var fields := Get(schema, "fields").value;
        if !fields.Obj? then Err(ValueError(FieldsNotDict))
        else match Traverse(fields.entries, CheckField)
          case Err(e) => Err(e)
          case Ok(_) => Ok(true)
  }

  /**
   * A missing `table_name` is reported before anything about `fields`, and a
   * missing `fields` before its shape.
   */
  lemma ValidateSchemaOrder(schema: Dict)
    ensures !HasKey(schema, "table_name") ==>
      ValidateSchema(schema) == Err(ValueError(MissingSchemaKey("table_name")))
    ensures HasKey(schema, "table_name") && !HasKey(schema, "fields") ==>
      ValidateSchema(schema) == Err(ValueError(MissingSchemaKey("fields")))
    ensures HasKey(schema, "table_name") && HasKey(schema, "fields") && !Get(schema, "fields").value.Obj? ==>
      ValidateSchema(schema) == Err(ValueError(FieldsNotDict))
  {
  }

  /**
   * A schema is accepted exactly when it has both keys and a dict of fields
   * each of which holds `type`; it then returns `True`. Otherwise the first
   * field without `type` is the one reported.
   */
  lemma {:induction false} ValidateSchemaSpec(schema: Dict)
    ensures ValidateSchema(schema).Ok? ==> ValidateSchema(schema).value
    ensures ValidateSchema(schema).Ok? <==>
      HasKey(schema, "table_name") && HasKey(schema, "fields") &&
      Get(schema, "fields").value.Obj? &&
      forall i :: 0 <= i < |Get(schema, "fields").value.entries| ==>
        PyIn("type", Get(schema, "fields").value.entries[i].val) == Some(true)
    ensures HasKey(schema, "table_name") && HasKey(schema, "fields") && Get(schema, "fields").value.Obj? ==>
      var fs := Get(schema, "fields").value.entries;
      forall i :: (0 <= i < |fs| && PyIn("type", fs[i].val) == Some(false) &&
        (forall j :: 0 <= j < i ==> PyIn("type", fs[j].val) == Some(true))) ==>
        ValidateSchema(schema) == Err(ValueError(MissingType(fs[i].key)))
  {
    assert SchemaRequiredKeys[1..] == ["fields"];
    if HasKey(schema, "table_name") && HasKey(schema, "fields") && Get(schema, "fields").value.Obj? {
      var fs := Get(schema, "fields").value.entries;
      TraverseSpec(fs, CheckField);
      forall i | 0 <= i < |fs| && PyIn("type", fs[i].val) == Some(false) &&
        (forall j :: 0 <= j < i ==> PyIn("type", fs[j].val) == Some(true))
        ensures ValidateSchema(schema) == Err(ValueError(MissingType(fs[i].key)))
      {
        TraverseSpec(fs[..i], CheckField);
        TraverseFirstError(fs, CheckField, i);
      }
    }
  }

  /**
   * Every schema the table builder of db_manager.py accepts passes validation;
   * when every field configuration is a dict, the converse holds too.
   */
  lemma ValidSchemaBuildsTable(schema: Dict)
    ensures DbManager.CreationSql(schema).Ok? ==> ValidateSchema(schema) == Ok(true)
    ensures (ValidateSchema(schema).Ok? && Get(schema, "fields").value.Obj? &&
      forall i :: 0 <= i < |Get(schema, "fields").value.entries| ==> Get(schema, "fields").value.entries[i].val.Obj?) ==>
      DbManager.CreationSql(schema).Ok?
  {
    DbManager.CreationSqlSpec(schema);
    ValidateSchemaSpec(schema);
  }

  /** `validate_schema_config`: the required keys in order, then the fields, raising at the first problem. */
  method ValidateSchemaConfig(schema: Dict) returns (r: Result<bool, Raised>)
    ensures r == ValidateSchema(schema)
  {
    var k := 0;
    while k < |SchemaRequiredKeys|
      invariant k <= |SchemaRequiredKeys|
      invariant FirstMissing(schema, SchemaRequiredKeys) == FirstMissing(schema, SchemaRequiredKeys[k..])
    {
      var key := SchemaRequiredKeys[k];
      if !HasKey(schema, key) {
        return Err(ValueError(MissingSchemaKey(key)));
      }
      assert SchemaRequiredKeys[k..][1..] == SchemaRequiredKeys[k + 1..];
      k := k + 1;
    }
    var fields := Get(schema, "fields").value;
    if !fields.Obj? {
      return Err(ValueError(FieldsNotDict));
    }
    var fs := fields.entries;
    var i := 0;
    while i < |fs|
      invariant i <= |fs|
      invariant Traverse(fs[..i], CheckField).Ok?
    {
      TraverseStep(fs, CheckField, i);
      var c := CheckField(fs[i]);
      if c.Err? {
        TraverseFirstError(fs, CheckField, i);
        return Err(c.error);
      }
      i := i + 1;
    }
    assert fs[..i] == fs;
    r := Ok(true);
  }

  // ---------------------------------------------------------------------------
  // validate_database_config
  // ---------------------------------------------------------------------------

  const NoClouds: string := "Database config must contain 'clouds' section"

  /** The settings every cloud must have; `port` is not among them. */
  const RequiredCloudKeys: seq<string> := ["host", "database", "user", "password"]

  function MissingCloudKey(cloud: string, key: string): string {
    "Cloud '" + cloud + "' is missing required key: " + key
  }

  /** `key not in cloud_config` for cloud `e.key`. */
  function CheckCloudKey(e: Entry, key: string): Result<(), Raised> {
    match PyIn(key, e.val)
      case None => Err(TypeError)
      case Some(found) => if found then Ok(()) else Err(ValueError(MissingCloudKey(e.key, key)))
  }

  /** The inner loop over the required keys of one cloud. */
  function CheckCloud(e: Entry): Result<(), Raised> {
    match Traverse(RequiredCloudKeys, k => CheckCloudKey(e, k))
      case Err(x) => Err(x)
      case Ok(_) => Ok(())
  }

  /** `validate_database_config(db_config)`: `True`, or what it raises. */
  function ValidateDatabase(dbConfig: Dict): Result<bool, Raised> {
    match Get(dbConfig, "clouds")
      case None => Err(ValueError(NoClouds))
      case Some(clouds) =>
        if !clouds.Obj? then Err(AttributeError)
        else match Traverse(clouds.entries, CheckCloud)
          case Err(x) => Err(x)
          case Ok(_) => Ok(true)
  }

  /** A cloud passes exactly when each required key is in its settings; the first one absent is reported. */
  lemma CheckCloudSpec(e: Entry)
    ensures CheckCloud(e).Ok? <==> forall k :: k in RequiredCloudKeys ==> PyIn(k, e.val) == Some(true)
    ensures forall i :: (0 <= i < |RequiredCloudKeys| && PyIn(RequiredCloudKeys[i], e.val) == Some(false) &&
      (forall j :: 0 <= j < i ==> PyIn(RequiredCloudKeys[j], e.val) == Some(true))) ==>
      CheckCloud(e) == Err(ValueError(MissingCloudKey(e.key, RequiredCloudKeys[i])))
  {
    var f := k => CheckCloudKey(e, k);
    TraverseSpec(RequiredCloudKeys, f);
    forall i | 0 <= i < |RequiredCloudKeys| && PyIn(RequiredCloudKeys[i], e.val) == Some(false) &&
      (forall j :: 0 <= j < i ==> PyIn(RequiredCloudKeys[j], e.val) == Some(true))
      ensures CheckCloud(e) == Err(ValueError(MissingCloudKey(e.key, RequiredCloudKeys[i])))
    {
      TraverseSpec(RequiredCloudKeys[..i], f);
      TraverseFirstError(RequiredCloudKeys, f, i);
    }
  }

  /**
   * A configuration is accepted exactly when it has a dict of clouds each
   * holding the four required keys; a missing `clouds` is the first error.
   */
  lemma {:induction false} ValidateDatabaseSpec(dbConfig: Dict)
    ensures ValidateDatabase(dbConfig).Ok? ==> ValidateDatabase(dbConfig).value
    ensures !HasKey(dbConfig, "clouds") ==> ValidateDatabase(dbConfig) == Err(ValueError(NoClouds))
    ensures ValidateDatabase(dbConfig).Ok? <==>
      HasKey(dbConfig, "clouds") && Get(dbConfig, "clouds").value.Obj? &&
      forall i, k :: 0 <= i < |Get(dbConfig, "clouds").value.entries| && k in RequiredCloudKeys ==>
        PyIn(k, Get(dbConfig, "clouds").value.entries[i].val) == Some(true)
  {
    if HasKey(dbConfig, "clouds") && Get(dbConfig, "clouds").value.Obj? {
      var cs := Get(dbConfig, "clouds").value.entries;
      TraverseSpec(cs, CheckCloud);
      forall i | 0 <= i < |cs| ensures CheckCloud(cs[i]).Ok? <==> forall k :: k in RequiredCloudKeys ==> PyIn(k, cs[i].val) == Some(true) {
        CheckCloudSpec(cs[i]);
      }
    }
  }

  /**
   * `port` is not required: a dict of clouds each of whose settings is a dict
   * with host, database, user and password passes, whatever else it holds.
   */
  lemma PortNotRequired(dbConfig: Dict)
    requires HasKey(dbConfig, "clouds") && Get(dbConfig, "clouds").value.Obj?
    requires var cs := Get(dbConfig, "clouds").value.entries;
      forall i :: 0 <= i < |cs| ==>
        (cs[i].val.Obj? &&
         HasKey(cs[i].val.entries, "host") && HasKey(cs[i].val.entries, "database") &&
         HasKey(cs[i].val.entries, "user") && HasKey(cs[i].val.entries, "password"))
    ensures "port" !in RequiredCloudKeys
    ensures ValidateDatabase(dbConfig) == Ok(true)
  {
    ValidateDatabaseSpec(dbConfig);
  }

  /**
   * A validated configuration whose cloud settings are dicts yields one
   * connection per cloud in db_manager.py, and its host, database, user and
   * password come from the settings, never from the defaults.
   */
  lemma ValidatedConnections(dbConfig: Dict)
    requires ValidateDatabase(dbConfig).Ok?
    requires forall i :: 0 <= i < |Get(dbConfig, "clouds").value.entries| ==> Get(dbConfig, "clouds").value.entries[i].val.Obj?
    ensures DbManager.ConnectionsOf(dbConfig).Ok?
    ensures var cs := Get(dbConfig, "clouds").value.entries;
      var conns := DbManager.ConnectionsOf(dbConfig).value;
      |conns| == |cs| &&
      forall i :: 0 <= i < |cs| ==>
        conns[i].cloud == cs[i].key &&
        Some(conns[i].host) == Get(cs[i].val.entries, "host") &&
        Some(conns[i].database) == Get(cs[i].val.entries, "database") &&
        Some(conns[i].user) == Get(cs[i].val.entries, "user") &&
        Some(conns[i].password) == Get(cs[i].val.entries, "password")
  {
    ValidateDatabaseSpec(dbConfig);
    DbManager.ConnectionsOfSpec(dbConfig);
    var cs := Get(dbConfig, "clouds").value.entries;
    forall i | 0 <= i < |cs|
      ensures HasKey(cs[i].val.entries, "host") && HasKey(cs[i].val.entries, "database") &&
        HasKey(cs[i].val.entries, "user") && HasKey(cs[i].val.entries, "password")
    {
      assert "host" in RequiredCloudKeys && "database" in RequiredCloudKeys;
      assert "user" in RequiredCloudKeys && "password" in RequiredCloudKeys;
    }
  }

  /** `validate_database_config`: every cloud, and for each every required key, raising at the first one missing. */
  method ValidateDatabaseConfig(dbConfig: Dict) returns (r: Result<bool, Raised>)
    ensures r == ValidateDatabase(dbConfig)
  {
    var clouds := Get(dbConfig, "clouds");
    if clouds.None? {
      return Err(ValueError(NoClouds));
    }
    if !clouds.value.Obj? {
      return Err(AttributeError);
    }
    var cs := clouds.value.entries;
    var i := 0;
    while i < |cs|
      invariant i <= |cs|
      invariant Traverse(cs[..i], CheckCloud).Ok?
    {
      TraverseStep(cs, CheckCloud, i);
      var c := CheckCloudConfig(cs[i]);
      if c.Err? {
        TraverseFirstError(cs, CheckCloud, i);
        return Err(c.error);
      }
      i := i + 1;
    }
    assert cs[..i] == cs;
    r := Ok(true);
  }

  /** The inner loop of `validate_database_config` for one cloud. */
  method CheckCloudConfig(e: Entry) returns (r: Result<(), Raised>)
    ensures r == CheckCloud(e)
  {
    var f := k => CheckCloudKey(e, k);
    var j := 0;
    while j < |RequiredCloudKeys|
      invariant j <= |RequiredCloudKeys|
      invariant Traverse(RequiredCloudKeys[..j], f).Ok?
    {
      TraverseStep(RequiredCloudKeys, f, j);
      var c := CheckCloudKey(e, RequiredCloudKeys[j]);
      if c.Err? {
        TraverseFirstError(RequiredCloudKeys, f, j);
        return Err(c.error);
      }
      j := j + 1;
    }
    assert RequiredCloudKeys[..j] == RequiredCloudKeys;
    r := Ok(());
  }

  // ---------------------------------------------------------------------------
  // calculate_percentiles
  // ---------------------------------------------------------------------------

  const DefaultPercentiles: seq<int> := [25, 50, 75, 95, 99]

  /**
   * `calculate_percentiles(values, percentiles)`, with numpy's `percentile`
   * as a parameter: one entry per requested percentile.
   */
  function Percentiles(values: seq<real>, ps: seq<int>, percentile: (seq<real>, int) -> real): (r: map<int, real>)
    ensures r.Keys == set p | p in ps
  {
    if |values| == 0 then map p | p in ps :: 0.0
    else map p | p in ps :: percentile(values, p)
  }

  /**
   * Without values every requested percentile is 0 and numpy is never
   * consulted: any two `percentile` functions give the same map.
   */
  lemma EmptyPercentiles(ps: seq<int>, percentile: (seq<real>, int) -> real, other: (seq<real>, int) -> real)
    ensures forall p :: p in ps ==> p in Percentiles([], ps, percentile) && Percentiles([], ps, percentile)[p] == 0.0
    ensures Percentiles([], ps, percentile) == Percentiles([], ps, other)
  {
  }

  /** With the default list and no values the result is `{25: 0.0, 50: 0.0, 75: 0.0, 95: 0.0, 99: 0.0}`. */
  lemma EmptyDefaultPercentiles(percentile: (seq<real>, int) -> real)
    ensures Percentiles([], DefaultPercentiles, percentile) == map[25 := 0.0, 50 := 0.0, 75 := 0.0, 95 := 0.0, 99 := 0.0]
  {
    var r := Percentiles([], DefaultPercentiles, percentile);
    assert r.Keys == {25, 50, 75, 95, 99};
  }

  // ---------------------------------------------------------------------------
  // The ranking of generate_performance_report
  // ---------------------------------------------------------------------------

  /** The figures of one cloud's summary that the ranking reads. */
  datatype CloudFigures = CloudFigures(successfulOperations: int, recordsPerSecond: real, averageExecutionTime: real)

  /** One `(cloud, data)` item of the results dict. */
  datatype CloudItem = CloudItem(cloud: string, data: CloudFigures)

  /** One numbered line of a ranking: position, cloud name in upper case, and its figures. */
  datatype RankLine = RankLine(position: nat, name: string, data: CloudFigures)

  /** The two rankings of the report. */
  datatype Ranking = Ranking(byThroughput: seq<RankLine>, bySpeed: seq<RankLine>)

  /** `successful_clouds`: the clouds with a successful operation, in dict order. */
  function SuccessfulClouds(results: seq<CloudItem>): (r: seq<CloudItem>)
    ensures forall x :: x in r <==> x in results && x.data.successfulOperations > 0
    ensures |r| <= |results|
  {
    if |results| == 0 then []
    else
      var rest := SuccessfulClouds(results[1..]);
      assert forall x :: x in results <==> x == results[0] || x in results[1..];
      if results[0].data.successfulOperations > 0 then [results[0]] + rest else rest
  }

  /** `key=records_per_second, reverse=True`: higher throughput first, ties in input order. */
  predicate HigherThroughput(a: CloudItem, b: CloudItem) {
    a.data.recordsPerSecond >= b.data.recordsPerSecond
  }

  /** `key=average_execution_time`: lower average time first, ties in input order. */
  predicate LowerAverageTime(a: CloudItem, b: CloudItem) {
    a.data.averageExecutionTime <= b.data.averageExecutionTime
  }

  lemma RankOrders()
    ensures TotalPreorder(HigherThroughput)
    ensures TotalPreorder(LowerAverageTime)
  {
  }

  /** `enumerate(s, 1)` with `cloud.upper()`. */
  function Numbered(s: seq<CloudItem>): (r: seq<RankLine>)
    ensures |r| == |s|
    ensures forall i :: 0 <= i < |s| ==> r[i] == RankLine(i + 1, AsciiUpper(s[i].cloud), s[i].data)
  {
    seq(|s|, i requires 0 <= i < |s| => RankLine(i + 1, AsciiUpper(s[i].cloud), s[i].data))
  }

  /** The ranking section of the report; none when no cloud had a successful operation. */
  function PerformanceRanking(results: seq<CloudItem>): Option<Ranking> {
    var ok := SuccessfulClouds(results);
    if |ok| == 0 then None
    else Some(Ranking(Numbered(SortBy(ok, HigherThroughput)), Numbered(SortBy(ok, LowerAverageTime))))
  }

  /**
   * The ranking is there exactly when some cloud succeeded. Each list holds
   * exactly the successful clouds, each once per occurrence, numbered 1..k:
   * by throughput in descending order, by average time in ascending order.
   */
  lemma PerformanceRankingSpec(results: seq<CloudItem>)
    ensures PerformanceRanking(results).None? <==> forall i :: 0 <= i < |results| ==> results[i].data.successfulOperations <= 0
    ensures PerformanceRanking(results).Some? ==>
      var ok := SuccessfulClouds(results);
      var bt := SortBy(ok, HigherThroughput);
      var bs := SortBy(ok, LowerAverageTime);
      multiset(bt) == multiset(ok) && multiset(bs) == multiset(ok) &&
      (forall x :: x in bt <==> x in results && x.data.successfulOperations > 0) &&
      (forall x :: x in bs <==> x in results && x.data.successfulOperations > 0) &&
      PerformanceRanking(results).value == Ranking(Numbered(bt), Numbered(bs)) &&
      (forall i, j :: 0 <= i < j < |bt| ==> bt[i].data.recordsPerSecond >= bt[j].data.recordsPerSecond) &&
      (forall i, j :: 0 <= i < j < |bs| ==> bs[i].data.averageExecutionTime <= bs[j].data.averageExecutionTime)
  {
    var ok := SuccessfulClouds(results);
    if |ok| == 0 {
      forall i | 0 <= i < |results| ensures results[i].data.successfulOperations <= 0 {
        assert results[i] in results;
        assert results[i] !in ok;
      }
    } else {
      assert ok[0] in ok;
      RankOrders();
      var bt := SortBy(ok, HigherThroughput);
      var bs := SortBy(ok, LowerAverageTime);
      SortBySorted(ok, HigherThroughput);
      SortBySorted(ok, LowerAverageTime);
      forall x ensures x in bt <==> x in ok {
        assert x in bt <==> x in multiset(bt);
        assert x in ok <==> x in multiset(ok);
      }
      forall x ensures x in bs <==> x in ok {
        assert x in bs <==> x in multiset(bs);
        assert x in ok <==> x in multiset(ok);
      }
    }
  }

  /** The lines of both rankings number the same clouds: a cloud's figures appear once per occurrence in each. */
  lemma RankingsAgree(results: seq<CloudItem>)
    requires PerformanceRanking(results).Some?
    ensures var r := PerformanceRanking(results).value;
      |r.byThroughput| == |r.bySpeed| == |SuccessfulClouds(results)| &&
      forall i :: 0 <= i < |r.byThroughput| ==> r.byThroughput[i].position == i + 1 && r.bySpeed[i].position == i + 1
  {
    var ok := SuccessfulClouds(results);
    var bt, bs := SortBy(ok, HigherThroughput), SortBy(ok, LowerAverageTime);
    assert |bt| == |multiset(bt)| == |multiset(ok)| == |ok|;
    assert |bs| == |multiset(bs)| == |multiset(ok)|;
    var r := PerformanceRanking(results).value;
    assert r.byThroughput == Numbered(bt) && r.bySpeed == Numbered(bs);
  }
}
