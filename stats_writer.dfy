/**
 * The migration stats writer: three JSON documents (progress, batch stats,
 * final results) kept as files in an output directory. Each method reads a
 * document, sets some of its keys or appends to its `batches` list, and
 * writes it back. A document is `None` while its file does not exist; reading
 * such a document gives `{}`.
 */
module StatsWriting {
  import opened Common
  import opened Json
  import opened Strings

  /** Python's `if self.cloud_provider:` on an optional string. */
  predicate IsSet(o: Option<string>) {
    o.Some? && |o.value| > 0
  }

  /** `_read_json`: the document, or `{}` when its file does not exist. */
  function ReadDoc(doc: Option<Dict>): Dict {
    if doc.Some? then doc.value else []
  }

  /** `_init_files` for one document: the default is written only when there is no file. */
  function InitDoc(doc: Option<Dict>, default: Dict): (r: Option<Dict>)
    ensures r.Some?
    ensures doc.Some? ==> r == doc
    ensures doc.None? ==> r == Some(default)
  {
    if doc.Some? then doc else Some(default)
  }

  const ProgressKeys: seq<string> :=
    ["status", "current_file", "current_batch", "files_completed", "total_files",
     "total_records_processed", "start_time", "last_update"]

  /** The progress document `_init_files` writes. */
  function DefaultProgress(): Dict {
    [Entry("status", Str("idle")), Entry("current_file", Str("")), Entry("current_batch", Int(0)),
     Entry("files_completed", Int(0)), Entry("total_files", Int(0)),
     Entry("total_records_processed", Int(0)), Entry("start_time", Null), Entry("last_update", Null)]
  }

  function DefaultStats(): Dict {
    [Entry("batches", List([]))]
  }

  /** Adds `cloud_provider` and `instance_type`, each only when it is set. */
  function WithMetadata(d: Dict, provider: Option<string>, instance: Option<string>): Dict {
    var d1 := if IsSet(provider) then Set(d, "cloud_provider", Str(provider.value)) else d;
    if IsSet(instance) then Set(d1, "instance_type", Str(instance.value)) else d1
  }

  lemma WithMetadataSpec(d: Dict, provider: Option<string>, instance: Option<string>, k: string)
    ensures Get(WithMetadata(d, provider, instance), k) ==
      if k == "instance_type" && IsSet(instance) then Some(Str(instance.value))
      else if k == "cloud_provider" && IsSet(provider) then Some(Str(provider.value))
      else Get(d, k)
    ensures DistinctKeys(d) ==> DistinctKeys(WithMetadata(d, provider, instance))
  {
    var d1 := if IsSet(provider) then Set(d, "cloud_provider", Str(provider.value)) else d;
    if IsSet(provider) {
      GetSet(d, "cloud_provider", Str(provider.value), k);
    }
    if IsSet(instance) {
      GetSet(d1, "instance_type", Str(instance.value), k);
    }
  }

  /** `update_progress(**updates)`: `progress.update(updates)`, then `last_update`. */
  function ProgressUpdated(p: Dict, updates: Dict, now: string): Dict {
    Set(Update(p, updates), "last_update", Str(now))
  }

  /**
   * `update_progress` overwrites exactly the given keys and `last_update`;
   * every other key reads as before, and the keys already there keep their places.
   */
  lemma ProgressUpdatedSpec(p: Dict, updates: Dict, now: string, k: string)
    requires DistinctKeys(updates)
    ensures Get(ProgressUpdated(p, updates, now), k) ==
      if k == "last_update" then Some(Str(now))
      else if HasKey(updates, k) then Get(updates, k)
      else Get(p, k)
    ensures |Keys(ProgressUpdated(p, updates, now))| >= |p|
    ensures Keys(ProgressUpdated(p, updates, now))[..|p|] == Keys(p)
    ensures DistinctKeys(p) ==> DistinctKeys(ProgressUpdated(p, updates, now))
  {
    var u := Update(p, updates);
    GetUpdate(p, updates, k);
    GetSet(u, "last_update", Str(now), k);
    UpdateKeepsOrder(p, updates);
    if DistinctKeys(p) {
      UpdateKeepsDistinct(p, updates);
    }
  }

  /** The progress document `start_migration(total_files)` writes, before its metadata. */
  function StartEntries(totalFiles: int, now: string): Dict {
    [Entry("status", Str("running")), Entry("current_file", Str("")), Entry("current_batch", Int(0)),
     Entry("files_completed", Int(0)), Entry("total_files", Int(totalFiles)),
     Entry("total_records_processed", Int(0)), Entry("start_time", Str(now)), Entry("last_update", Str(now))]
  }

  /** The progress document `start_migration(total_files)` writes, replacing the old one. */
  function StartProgress(totalFiles: int, now: string, provider: Option<string>, instance: Option<string>): Dict {
    WithMetadata(StartEntries(totalFiles, now), provider, instance)
  }

  /** The stats document `start_migration` writes: no batches yet. */
  function StartStats(provider: Option<string>, instance: Option<string>): Dict {
    WithMetadata(DefaultStats(), provider, instance)
  }

  /**
   * `start_migration` resets every progress counter, records the file count
   * and the start time, and adds the metadata that is set; no other key is left.
   */
  lemma StartProgressSpec(totalFiles: int, now: string, provider: Option<string>, instance: Option<string>, k: string)
    ensures Get(StartProgress(totalFiles, now, provider, instance), k) ==
      if k == "instance_type" && IsSet(instance) then Some(Str(instance.value))
      else if k == "cloud_provider" && IsSet(provider) then Some(Str(provider.value))
      else if k == "status" then Some(Str("running"))
      else if k == "current_file" then Some(Str(""))
      else if k == "current_batch" || k == "files_completed" || k == "total_records_processed" then Some(Int(0))
      else if k == "total_files" then Some(Int(totalFiles))
      else if k == "start_time" || k == "last_update" then Some(Str(now))
      else None
    ensures Keys(StartProgress(totalFiles, now, provider, instance))[..|ProgressKeys|] == ProgressKeys
  {
    WithMetadataSpec(StartEntries(totalFiles, now), provider, instance, k);
    StartEntriesGet(totalFiles, now, k);
    MetadataKeepsKeys(StartEntries(totalFiles, now), provider, instance);
    StartEntriesKeys(totalFiles, now);
  }

  lemma StartProgressValues(totalFiles: int, now: string, provider: Option<string>, instance: Option<string>)
    ensures var p := StartProgress(totalFiles, now, provider, instance);
      Get(p, "status") == Some(Str("running")) && Get(p, "total_files") == Some(Int(totalFiles)) &&
      Get(p, "files_completed") == Some(Int(0))
  {
    StartProgressSpec(totalFiles, now, provider, instance, "status");
    StartProgressSpec(totalFiles, now, provider, instance, "total_files");
    StartProgressSpec(totalFiles, now, provider, instance, "files_completed");
  }

  lemma StartEntriesKeys(totalFiles: int, now: string)
    ensures Keys(StartEntries(totalFiles, now)) == ProgressKeys
  {
    var ks := Keys(StartEntries(totalFiles, now));
    assert |ks| == |ProgressKeys|;
    forall i | 0 <= i < |ks| ensures ks[i] == ProgressKeys[i] {
    }
  }

  lemma StartEntriesGet(totalFiles: int, now: string, k: string)
    ensures Get(StartEntries(totalFiles, now), k) ==
      if k == "status" then Some(Str("running"))
      else if k == "current_file" then Some(Str(""))
      else if k == "current_batch" || k == "files_completed" || k == "total_records_processed" then Some(Int(0))
      else if k == "total_files" then Some(Int(totalFiles))
      else if k == "start_time" || k == "last_update" then Some(Str(now))
      else None
  {
    StartEntriesHead(totalFiles, now, k);
    StartEntriesTail(totalFiles, now, k);
  }

  lemma StartEntriesHead(totalFiles: int, now: string, k: string)
    ensures var d := StartEntries(totalFiles, now);
      Get(d, k) ==
        if k == "status" then Some(Str("running"))
        else if k == "current_file" then Some(Str(""))
        else if k == "current_batch" || k == "files_completed" then Some(Int(0))
        else Get(d[4..], k)
  {
    var d := StartEntries(totalFiles, now);
    GetFirst(d[0..], k);
    assert d[0..][1..] == d[1..];
    GetFirst(d[1..], k);
    assert d[1..][1..] == d[2..];
    GetFirst(d[2..], k);
    assert d[2..][1..] == d[3..];
    GetFirst(d[3..], k);
    assert d[3..][1..] == d[4..];
  }

  lemma StartEntriesTail(totalFiles: int, now: string, k: string)
    ensures var d := StartEntries(totalFiles, now)[4..];
      Get(d, k) ==
        if k == "total_files" then Some(Int(totalFiles))
        else if k == "total_records_processed" then Some(Int(0))
        else if k == "start_time" || k == "last_update" then Some(Str(now))
        else None
  {
    var d := StartEntries(totalFiles, now)[4..];
    GetFirst(d[0..], k);
    assert d[0..][1..] == d[1..];
    GetFirst(d[1..], k);
    assert d[1..][1..] == d[2..];
    GetFirst(d[2..], k);
    assert d[2..][1..] == d[3..];
    GetFirst(d[3..], k);
    assert d[3..][1..] == d[4..];
    assert d[4..] == [];
  }

  /** The keys a document had keep their places when the metadata is added. */
  lemma MetadataKeepsKeys(d: Dict, provider: Option<string>, instance: Option<string>)
    ensures |Keys(WithMetadata(d, provider, instance))| >= |d|
    ensures Keys(WithMetadata(d, provider, instance))[..|d|] == Keys(d)
  {
    var d1 := if IsSet(provider) then Set(d, "cloud_provider", Str(provider.value)) else d;
    assert Keys(d1)[..|d|] == Keys(d);
  }

  /** The stats `start_migration` leaves: an empty `batches` list and the metadata that is set. */
  lemma StartStatsSpec(provider: Option<string>, instance: Option<string>, k: string)
    ensures BatchList(StartStats(provider, instance)) == []
    ensures HasKey(StartStats(provider, instance), "batches")
    ensures Get(StartStats(provider, instance), k) ==
      if k == "instance_type" && IsSet(instance) then Some(Str(instance.value))
      else if k == "cloud_provider" && IsSet(provider) then Some(Str(provider.value))
      else if k == "batches" then Some(List([]))
      else None
  {
    WithMetadataSpec(DefaultStats(), provider, instance, k);
    WithMetadataSpec(DefaultStats(), provider, instance, "batches");
  }

  /**
   * `add_batch_stat(stat)`: a missing `batches` list is created, then `stat`
   * is appended; `None` is the error `append` raises when `batches` is not a
   * list, in which case nothing is written.
   */
  function BatchAppended(stats: Dict, stat: Value): Option<Dict> {
    match Get(stats, "batches")
      case None => Some(Set(stats, "batches", List([stat])))
      case Some(List(items)) => Some(Set(stats, "batches", List(items + [stat])))
      case Some(_) => None
  }

  /** The batches of a stats document, `[]` when there is no list yet. */
  function BatchList(stats: Dict): seq<Value> {
    match Get(stats, "batches")
      case Some(List(items)) => items
      case _ => []
  }

  /**
   * `add_batch_stat` fails exactly when `batches` holds something other than
   * a list; otherwise `stat` lands at the end, the earlier batches and every
   * other key unchanged.
   */
  lemma BatchAppendedSpec(stats: Dict, stat: Value, k: string)
    ensures BatchAppended(stats, stat).None? <==> HasKey(stats, "batches") && !Get(stats, "batches").value.List?
    ensures BatchAppended(stats, stat).Some? ==>
      BatchList(BatchAppended(stats, stat).value) == BatchList(stats) + [stat] &&
      (k != "batches" ==> Get(BatchAppended(stats, stat).value, k) == Get(stats, k))
    ensures BatchAppended(stats, stat).Some? && DistinctKeys(stats) ==> DistinctKeys(BatchAppended(stats, stat).value)
  {
    match Get(stats, "batches")
      case None =>
        GetSet(stats, "batches", List([stat]), k);
        GetSet(stats, "batches", List([stat]), "batches");
      case Some(List(items)) =>
        GetSet(stats, "batches", List(items + [stat]), k);
        GetSet(stats, "batches", List(items + [stat]), "batches");
      case Some(_) =>
  }

  /**
   * `progress.get('files_completed', 0) + 1`: an integer or a boolean gives
   * an integer and a float a float; `None` is the `TypeError` of a value
   * that is neither a number nor a boolean.
   */
  function Incremented(v: Option<Value>): Option<Value> {
    match v
      case None => Some(Int(1))
      case Some(Int(i)) => Some(Int(i + 1))
      case Some(Bool(b)) => Some(Int(if b then 2 else 1))
      case Some(Float(repr, r)) => Some(Float(DecimalText(r + 1.0, FractionDigits(repr)), r + 1.0))
      case Some(_) => None
  }

  /**
   * The increment succeeds exactly for a missing count or a number, and adds
   * one to it (a missing count being 0); only a float stays a float.
   */
  lemma IncrementedAddsOne(v: Option<Value>)
    ensures Incremented(v).Some? <==> v.None? || Numeric(v.value).Some?
    ensures Incremented(v).Some? ==>
      Numeric(Incremented(v).value) == Some((if v.None? then 0.0 else Numeric(v.value).value) + 1.0)
    ensures Incremented(v).Some? ==> (Incremented(v).value.Float? <==> v.Some? && v.value.Float?)
  {
    match v {
      case None =>
      case Some(x) =>
        match x {
          case Int(i) => assert Incremented(v) == Some(Int(i + 1));
          case Bool(b) => assert Incremented(v) == Some(Int(if b then 2 else 1));
          case Float(repr, r) => assert Incremented(v).value.r == r + 1.0;
          case _ => assert Incremented(v).None?;
        }
    }
  }

  /** `10 ** k`. */
  function Pow10(k: nat): (p: nat)
    ensures p >= 1
  {
    if k == 0 then 1 else 10 * Pow10(k - 1)
  }

  /** The number of digits after the point in a float's text, at least one. */
  function FractionDigits(repr: string): (k: nat)
    ensures k >= 1
  {
    match Find(repr, ".")
      case None => 1
      case Some(i) => if i + 2 <= |repr| then |repr| - i - 1 else 1
  }

  /** `n` in decimal, padded with leading zeros to at least `k` digits. */
  function PaddedDigits(n: nat, k: nat): (s: string)
    ensures |s| >= k
  {
    var d := NatToString(n);
    if |d| >= k then d else seq(k - |d|, _ => '0') + d
  }

  /**
   * The text of `x` with `k` digits after the point: the text Python gives
   * the sum of a float and an integer when the float's text has `k` such
   * digits and nothing is lost to rounding.
   */
  function DecimalText(x: real, k: nat): string
    requires k >= 1
  {
    PointText(ScaledFloor(x, k), k)
  }

  /** `x` scaled by `10 ** k` and rounded down. */
  function ScaledFloor(x: real, k: nat): int {
    (x * Pow10(k) as real).Floor
  }

  /** The integer `n` written with a point `k` digits from the right. */
  function PointText(n: int, k: nat): string
    requires k >= 1
  {
    var d := PaddedDigits(if n < 0 then -n else n, k + 1);
    (if n < 0 then "-" else "") + d[..|d| - k] + "." + d[|d| - k..]
  }

  /** A whole number with one digit after the point reads as Python writes a whole float. */
  lemma DecimalTextWhole(w: int)
    ensures DecimalText(w as real, 1) == IntToString(w) + ".0"
  {
    FloorTimesTen(w);
    PointTextTen(w, w * 10);
  }

  lemma PointTextTen(w: int, n: int)
    requires n == w * 10
    ensures PointText(n, 1) == IntToString(w) + ".0"
  {
    var m: nat := if w < 0 then -w else w;
    assert (if n < 0 then -n else n) == m * 10;
    PaddedTimesTen(m);
    var d, t := PaddedDigits(m * 10, 2), NatToString(m);
    SplitLast(t, '0');
    assert d == t + "0" && |d| - 1 == |t|;
    var sign := if n < 0 then "-" else "";
    assert PointText(n, 1) == sign + t + "." + "0";
    assert IntToString(w) == sign + t;
  }

  lemma SplitLast(t: string, c: char)
    ensures (t + [c])[..|t|] == t && (t + [c])[|t|..] == [c]
  {
  }

  lemma FloorTimesTen(w: int)
    ensures ScaledFloor(w as real, 1) == w * 10
  {
    assert Pow10(1) == 10;
    assert w as real * 10.0 == (w * 10) as real;
  }

  /** Ten times `m`, padded to two digits, is `m`'s digits and a `0`. */
  lemma PaddedTimesTen(m: nat)
    ensures PaddedDigits(m * 10, 2) == NatToString(m) + "0"
  {
    var a: nat := m * 10;
    assert a / 10 == m && a % 10 == 0;
    if m == 0 {
      assert PaddedDigits(0, 2) == "00";
    } else {
      assert NatToString(a) == NatToString(m) + "0";
    }
  }

  /** A whole float count such as `2.0` becomes `3.0`. */
  lemma IncrementedWholeFloat(w: int)
    ensures Incremented(Some(Float(IntToString(w) + ".0", w as real))) == Some(Float(IntToString(w + 1) + ".0", (w + 1) as real))
  {
    FractionDigitsWhole(w);
    assert w as real + 1.0 == (w + 1) as real;
    DecimalTextWhole(w + 1);
  }

  /** The text of a whole float has one digit after its point. */
  lemma FractionDigitsWhole(w: int)
    ensures FractionDigits(IntToString(w) + ".0") == 1
  {
    var repr := IntToString(w) + ".0";
    var i := |IntToString(w)|;
    assert OccursAt(repr, ".", i);
    assert forall j :: 0 <= j < i ==> !OccursAt(repr, ".", j) by {
      forall j | 0 <= j < i ensures !OccursAt(repr, ".", j) {
        assert repr[j] == IntToString(w)[j];
        assert repr[j..j + 1] == [repr[j]];
      }
    }
    assert Find(repr, ".") == Some(i);
  }

  /** A count `c` becomes `c + 1`. */
  lemma IncrementedCount(v: Option<Value>, c: int)
    requires v == Some(Int(c))
    ensures Incremented(v) == Some(Int(c + 1))
  {
  }

  /** `complete_file`: one more file completed, no current file, a new `last_update`. */
  function FileCompleted(p: Dict, now: string): Option<Dict> {
    match Incremented(Get(p, "files_completed"))
      case None => None
      case Some(n) => Some(Set(Set(Set(p, "files_completed", n), "current_file", Str("")), "last_update", Str(now)))
  }

  /**
   * `complete_file` sets `files_completed` to one more than before (a missing
   * count being 0), clears `current_file` and sets `last_update`; every other
   * key reads as before.
   */
  lemma FileCompletedSpec(p: Dict, now: string, k: string)
    ensures FileCompleted(p, now).Some? <==>
      !HasKey(p, "files_completed") || Get(p, "files_completed").value.Int? ||
      Get(p, "files_completed").value.Bool? || Get(p, "files_completed").value.Float?
    ensures FileCompleted(p, now).Some? ==>
      var r := FileCompleted(p, now).value;
      Get(r, k) ==
        if k == "last_update" then Some(Str(now))
        else if k == "current_file" then Some(Str(""))
        else if k == "files_completed" then Incremented(Get(p, k))
        else Get(p, k)
  {
    var n := Incremented(Get(p, "files_completed"));
    if n.Some? {
      var p1 := Set(p, "files_completed", n.value);
      var p2 := Set(p1, "current_file", Str(""));
      assert FileCompleted(p, now) == Some(Set(p2, "last_update", Str(now)));
      GetSet(p2, "last_update", Str(now), k);
      if k != "last_update" {
        GetSet(p1, "current_file", Str(""), k);
        if k != "current_file" {
          GetSet(p, "files_completed", n.value, k);
        }
      }
    }
  }

  /** The progress part of `complete_migration`. */
  function MigrationCompleted(p: Dict, now: string): Dict {
    Set(Set(p, "status", Str("completed")), "last_update", Str(now))
  }

  /** The progress part of `error_migration(message)`. */
  function MigrationFailed(p: Dict, message: string, now: string): Dict {
    Set(Set(Set(p, "status", Str("error")), "error_message", Str(message)), "last_update", Str(now))
  }

  /** The results `complete_migration(results)` saves. */
  function FinalResults(results: Dict, now: string, provider: Option<string>, instance: Option<string>): Dict {
    WithMetadata(Set(results, "completion_time", Str(now)), provider, instance)
  }

  /** `complete_migration` changes only `status` and `last_update` in the progress. */
  lemma MigrationCompletedSpec(p: Dict, now: string, k: string)
    ensures Get(MigrationCompleted(p, now), k) ==
      if k == "last_update" then Some(Str(now))
      else if k == "status" then Some(Str("completed"))
      else Get(p, k)
  {
    GetSet(p, "status", Str("completed"), k);
    GetSet(Set(p, "status", Str("completed")), "last_update", Str(now), k);
  }

  /** `error_migration` changes only `status`, `error_message` and `last_update`. */
  lemma MigrationFailedSpec(p: Dict, message: string, now: string, k: string)
    ensures Get(MigrationFailed(p, message, now), k) ==
      if k == "last_update" then Some(Str(now))
      else if k == "error_message" then Some(Str(message))
      else if k == "status" then Some(Str("error"))
      else Get(p, k)
  {
    var p1 := Set(p, "status", Str("error"));
    var p2 := Set(p1, "error_message", Str(message));
    GetSet(p, "status", Str("error"), k);
    GetSet(p1, "error_message", Str(message), k);
    GetSet(p2, "last_update", Str(now), k);
  }

  /** The final results are the caller's, plus `completion_time` and the metadata that is set. */
  lemma FinalResultsSpec(results: Dict, now: string, provider: Option<string>, instance: Option<string>, k: string)
    ensures Get(FinalResults(results, now, provider, instance), k) ==
      if k == "instance_type" && IsSet(instance) then Some(Str(instance.value))
      else if k == "cloud_provider" && IsSet(provider) then Some(Str(provider.value))
      else if k == "completion_time" then Some(Str(now))
      else Get(results, k)
  {
    WithMetadataSpec(Set(results, "completion_time", Str(now)), provider, instance, k);
    GetSet(results, "completion_time", Str(now), k);
  }

  class StatsWriter {
    const provider: Option<string>
    const instance: Option<string>
    var progress: Option<Dict>
    var stats: Option<Dict>
    var results: Option<Dict>

    /** The writer over an output directory whose three files are `progress`, `stats`, `results`. */
    constructor (provider: Option<string>, instance: Option<string>,
                 progress: Option<Dict>, stats: Option<Dict>, results: Option<Dict>)
      ensures this.provider == provider && this.instance == instance
      ensures this.progress == InitDoc(progress, DefaultProgress())
      ensures this.stats == InitDoc(stats, DefaultStats())
      ensures this.results == InitDoc(results, [])
    {
      this.provider := provider;
      this.instance := instance;
      this.progress := InitDoc(progress, DefaultProgress());
      this.stats := InitDoc(stats, DefaultStats());
      this.results := InitDoc(results, []);
    }

    function ReadProgress(): Dict
      reads this
    {
      ReadDoc(progress)
    }

    function ReadStats(): Dict
      reads this
    {
      ReadDoc(stats)
    }

    function ReadResults(): Dict
      reads this
    {
      ReadDoc(results)
    }

    method UpdateProgress(updates: Dict, now: string)
      requires DistinctKeys(updates)
      modifies this
      ensures progress == Some(ProgressUpdated(old(ReadProgress()), updates, now))
      ensures stats == old(stats) && results == old(results)
    {
      progress := Some(ProgressUpdated(ReadDoc(progress), updates, now));
    }

    method StartMigration(totalFiles: int, now: string)
      modifies this
      ensures progress == Some(StartProgress(totalFiles, now, provider, instance))
      ensures stats == Some(StartStats(provider, instance))
      ensures results == old(results)
    {
      progress := Some(StartProgress(totalFiles, now, provider, instance));
      stats := Some(StartStats(provider, instance));
    }

    method AddBatchStat(stat: Value) returns (ok: bool)
      modifies this
      ensures ok == BatchAppended(old(ReadStats()), stat).Some?
      ensures stats == if ok then Some(BatchAppended(old(ReadStats()), stat).value) else old(stats)
      ensures progress == old(progress) && results == old(results)
    {
      var r := BatchAppended(ReadDoc(stats), stat);
      ok := r.Some?;
      if ok {
        stats := Some(r.value);
      }
    }

    method CompleteFile(now: string) returns (ok: bool)
      modifies this
      ensures ok == FileCompleted(old(ReadProgress()), now).Some?
      ensures progress == if ok then Some(FileCompleted(old(ReadProgress()), now).value) else old(progress)
      ensures stats == old(stats) && results == old(results)
    {
      var r := FileCompleted(ReadDoc(progress), now);
      ok := r.Some?;
      if ok {
        progress := Some(r.value);
      }
    }

    /** Returns the results as saved: the caller's dict is extended in place in the source. */
    method CompleteMigration(final: Dict, now: string) returns (saved: Dict)
      modifies this
      ensures saved == FinalResults(final, now, provider, instance)
      ensures progress == Some(MigrationCompleted(old(ReadProgress()), now))
      ensures results == Some(saved) && stats == old(stats)
    {
      progress := Some(MigrationCompleted(ReadDoc(progress), now));
      saved := FinalResults(final, now, provider, instance);
      results := Some(saved);
    }

    method ErrorMigration(message: string, now: string)
      modifies this
      ensures progress == Some(MigrationFailed(old(ReadProgress()), message, now))
      ensures stats == old(stats) && results == old(results)
    {
      progress := Some(MigrationFailed(ReadDoc(progress), message, now));
    }

    /** `clear_all` only re-runs the initialisation: existing documents stay as they are. */
    method ClearAll()
      modifies this
      ensures progress == InitDoc(old(progress), DefaultProgress())
      ensures stats == InitDoc(old(stats), DefaultStats())
      ensures results == InitDoc(old(results), [])
    {
      progress := InitDoc(progress, DefaultProgress());
      stats := InitDoc(stats, DefaultStats());
      results := InitDoc(results, []);
    }
  }
}
