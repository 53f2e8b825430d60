/**
 * The session-log analysis of calude-monitor.py: the project name taken from
 * a log folder's name, the reading of a JSONL file, and the counters
 * `analyze_sessions` keeps over all messages of all sessions (token totals,
 * messages per model, branch, tool, project and day). The JSON decoder and
 * the date of a timestamp are parameters.
 */
module SessionMonitor {
  import opened Common
  import opened Strings
  import opened Json
  import opened Batching

  // ---------------------------------------------------------------------------
  // get_project_name_from_folder
  // ---------------------------------------------------------------------------

  /** `get_project_name_from_folder(folder)`: the last three `-`-separated parts of a long name. */
  function ProjectName(folder: string): string {
    var parts := Split(folder, '-');
    if |parts| > 5 then Join(parts[|parts| - 3..], "-") else folder
  }

  /**
   * A name of at most five parts is kept. A longer one is cut after its
   * third-last dash: the folder name is what was cut off, a dash and the
   * project name, which is three dash-free parts joined by dashes.
   */
  lemma ProjectNameSpec(folder: string)
    ensures |Split(folder, '-')| <= 5 ==> ProjectName(folder) == folder
    ensures |Split(folder, '-')| > 5 ==>
      var parts := Split(folder, '-');
      var n := |parts|;
      var name := ProjectName(folder);
      folder == Join(parts[..n - 3], "-") + "-" + name &&
      name == parts[n - 3] + "-" + parts[n - 2] + "-" + parts[n - 1] &&
      '-' !in parts[n - 3] && '-' !in parts[n - 2] && '-' !in parts[n - 1]
  {
    var parts := Split(folder, '-');
    var n := |parts|;
    if n > 5 {
      JoinSplit(folder, '-');
      assert parts == parts[..n - 3] + parts[n - 3..];
      JoinConcat(parts[..n - 3], parts[n - 3..], "-");
      var last := parts[n - 3..];
      var a, b, c := parts[n - 3], parts[n - 2], parts[n - 1];
      assert Join([b, c], "-") == b + "-" + c by {
        assert [b, c][1..] == [c];
      }
      assert Join(last, "-") == a + "-" + (b + "-" + c) by {
        assert last[1..] == [b, c];
      }
    }
  }

  // ---------------------------------------------------------------------------
  // parse_jsonl_file
  // ---------------------------------------------------------------------------

  /** `json.loads(line)`: the value, or `None` for `JSONDecodeError`. */
  type Decoder = string -> Option<Value>

  /** What one line adds: its value when it is not blank and decodes. */
  function LineValue(line: string, decode: Decoder): seq<Value> {
    if IsBlank(line) then []
    else match decode(line)
      case None => []
      case Some(v) => [v]
  }

  /** `parse_jsonl_file`: the decoded non-blank lines, in order. */
  function ParseLines(lines: seq<string>, decode: Decoder): seq<Value>
    decreases |lines|
  {
    if |lines| == 0 then []
    else ParseLines(lines[..|lines| - 1], decode) + LineValue(lines[|lines| - 1], decode)
  }

  /**
   * Reading two stretches of a file one after the other is reading the
   * whole: the values keep the order of their lines.
   */
  lemma {:induction false} ParseLinesConcat(a: seq<string>, b: seq<string>, decode: Decoder)
    ensures ParseLines(a + b, decode) == ParseLines(a, decode) + ParseLines(b, decode)
    decreases |b|
  {
    if |b| == 0 {
      assert a + b == a;
    } else {
      var b' := b[..|b| - 1];
      assert (a + b)[..|a + b| - 1] == a + b';
      ParseLinesConcat(a, b', decode);
    }
  }

  /**
   * One value per line that is not blank and decodes, and nothing for any
   * other line; every value is the decoding of one of the lines.
   */
  lemma {:induction false} ParseLinesSpec(lines: seq<string>, decode: Decoder)
    ensures |ParseLines(lines, decode)| <= |lines|
    ensures (forall i :: 0 <= i < |lines| ==> IsBlank(lines[i]) || decode(lines[i]).None?) ==> ParseLines(lines, decode) == []
    ensures forall v :: v in ParseLines(lines, decode) ==>
      exists i :: 0 <= i < |lines| && !IsBlank(lines[i]) && decode(lines[i]) == Some(v)
    decreases |lines|
  {
    if |lines| > 0 {
      var init := lines[..|lines| - 1];
      ParseLinesSpec(init, decode);
      forall v | v in ParseLines(lines, decode)
        ensures exists i :: 0 <= i < |lines| && !IsBlank(lines[i]) && decode(lines[i]) == Some(v)
      {
        if v in ParseLines(init, decode) {
          var i :| 0 <= i < |init| && !IsBlank(init[i]) && decode(init[i]) == Some(v);
          assert lines[i] == init[i];
        } else {
          assert v in LineValue(lines[|lines| - 1], decode);
        }
      }
      if forall i :: 0 <= i < |lines| ==> IsBlank(lines[i]) || decode(lines[i]).None? {
        assert forall i :: 0 <= i < |init| ==> init[i] == lines[i];
      }
    }
  }

  /** `parse_jsonl_file`: the loop over the lines, appending what decodes. */
  method ParseJsonlFile(lines: seq<string>, decode: Decoder) returns (messages: seq<Value>)
    ensures messages == ParseLines(lines, decode)
  {
    messages := [];
    var i := 0;
    while i < |lines|
      invariant i <= |lines|
      invariant messages == ParseLines(lines[..i], decode)
    {
      assert lines[..i + 1][..i] == lines[..i];
      var line := lines[i];
      if !IsBlank(line) {
        var v := decode(line);
        if v.Some? {
          messages := messages + [v.value];
        }
      }
      i := i + 1;
    }
    assert lines[..i] == lines;
  }

  // ---------------------------------------------------------------------------
  // analyze_sessions: what one message contributes
  // ---------------------------------------------------------------------------

  /** A session as `load_all_sessions_from_projects` builds it. */
  datatype Session = Session(sessionId: string, projectName: string, messages: seq<Value>)

  /** The date of a `timestamp` value, or `None` when `datetime.fromisoformat` (or `.replace`) raises. */
  type DayOf = Value -> Option<string>

  /** A value that can be a dict key: a list or a dict raises `TypeError`. */
  predicate Hashable(v: Value) {
    !v.List? && !v.Obj?
  }

  /** What a message with a truthy `usage` contributes. */
  datatype Usage = Usage(inputTokens: int, outputTokens: int, cacheReadTokens: int, cacheCreationTokens: int,
                         model: Value, day: string)

  /** What one message contributes to the counters. */
  datatype Facts = Facts(project: string, usage: Option<Usage>, branch: Option<Value>, tools: seq<Value>)

  /** `usage.get(key, 0)` as a token count. */
  function TokenField(usage: Dict, key: string): (r: Result<int, ()>)
    ensures r.Err? <==> HasKey(usage, key) && !Get(usage, key).value.Int?
    ensures r.Ok? && HasKey(usage, key) ==> Get(usage, key) == Some(Int(r.value))
    ensures r.Ok? && !HasKey(usage, key) ==> r.value == 0
  {
    match GetOr(usage, key, Int(0))
      case Int(i) => Ok(i)
      case _ => Err(())
  }

  /** `session_project_map.get(session_id, 'unknown')`. */
  function ProjectOf(projects: map<string, string>, sessionId: Value): string {
    if sessionId.Str? && sessionId.s in projects then projects[sessionId.s] else "unknown"
  }

  /** The usage part of a message whose `message` is the dict `inner`. */
  function UsageOf(msg: Dict, inner: Dict, dayOf: DayOf): Result<Option<Usage>, ()> {
    var u := GetOr(inner, "usage", Null);
    if !Truthy(u) then Ok(None)
    else if !u.Obj? then Err(())
    else
      var model := GetOr(inner, "model", Str("unknown"));
      var i := TokenField(u.entries, "input_tokens");
      var o := TokenField(u.entries, "output_tokens");
      var r := TokenField(u.entries, "cache_read_input_tokens");
      var c := TokenField(u.entries, "cache_creation_input_tokens");
      if i.Err? || o.Err? || r.Err? || c.Err? || !Hashable(model) then Err(())
      else match Get(msg, "timestamp")
        case None => Err(())
        case Some(ts) =>
          match dayOf(ts)
            case None => Err(())
            case Some(day) => Ok(Some(Usage(i.value, o.value, r.value, c.value, model, day)))
  }

  /** The tool names of a list-valued `content`: the `name` of every dict item of type "tool_use". */
  function ToolNames(items: seq<Value>): (r: seq<Value>)
    ensures |r| <= |items|
    decreases |items|
  {
    if |items| == 0 then []
    else
      var last := items[|items| - 1];
      ToolNames(items[..|items| - 1]) +
        (if last.Obj? && GetOr(last.entries, "type", Null) == Str("tool_use")
         then [GetOr(last.entries, "name", Str("unknown"))] else [])
  }

  /** The tools used by a message whose `message` is the dict `inner`. */
  function ToolsOf(inner: Dict): seq<Value> {
    var c := GetOr(inner, "content", Null);
    if Truthy(c) && c.List? then ToolNames(c.items) else []
  }

  /** What one message contributes; a message that is no dict, or a field of the wrong shape, raises. */
  function MessageFacts(msg: Value, projects: map<string, string>, dayOf: DayOf): Result<Facts, ()> {
    if !msg.Obj? then Err(())
    else
      var d := msg.entries;
      var sid := GetOr(d, "sessionId", Str(""));
      var inner := GetOr(d, "message", Obj([]));
      var branch := GetOr(d, "gitBranch", Null);
      if !Hashable(sid) || !inner.Obj? then Err(())
      else match UsageOf(d, inner.entries, dayOf)
        case Err(_) => Err(())
        case Ok(usage) =>
          if Truthy(branch) && !Hashable(branch) then Err(())
          else
            var tools := ToolsOf(inner.entries);
            if exists k :: 0 <= k < |tools| && !Hashable(tools[k]) then Err(())
            else Ok(Facts(ProjectOf(projects, sid), usage, if Truthy(branch) then Some(branch) else None, tools))
  }

  /** Every tool name counted is the `name` (or "unknown") of a dict item whose type is "tool_use". */
  lemma {:induction false} ToolNamesSpec(items: seq<Value>)
    ensures forall t :: t in ToolNames(items) ==>
      exists k :: 0 <= k < |items| && items[k].Obj? && GetOr(items[k].entries, "type", Null) == Str("tool_use") &&
        t == GetOr(items[k].entries, "name", Str("unknown"))
    ensures (forall k :: 0 <= k < |items| ==> !items[k].Obj? || GetOr(items[k].entries, "type", Null) != Str("tool_use")) ==>
      ToolNames(items) == []
    decreases |items|
  {
    if |items| > 0 {
      var init := items[..|items| - 1];
      ToolNamesSpec(init);
      forall t | t in ToolNames(items)
        ensures exists k :: (0 <= k < |items| && items[k].Obj? && GetOr(items[k].entries, "type", Null) == Str("tool_use") &&
          t == GetOr(items[k].entries, "name", Str("unknown")))
      {
        if t in ToolNames(init) {
          var k :| 0 <= k < |init| && init[k].Obj? && GetOr(init[k].entries, "type", Null) == Str("tool_use") &&
            t == GetOr(init[k].entries, "name", Str("unknown"));
          assert items[k] == init[k];
        } else {
          assert items[|items| - 1].Obj?;
        }
      }
      if forall k :: 0 <= k < |items| ==> !items[k].Obj? || GetOr(items[k].entries, "type", Null) != Str("tool_use") {
        assert forall k :: 0 <= k < |init| ==> init[k] == items[k];
      }
    }
  }

  /** A message that is not a dict, or whose `message` is not a dict, raises. */
  lemma MessageFactsShape(msg: Value, projects: map<string, string>, dayOf: DayOf)
    ensures !msg.Obj? ==> MessageFacts(msg, projects, dayOf) == Err(())
    ensures msg.Obj? && !GetOr(msg.entries, "message", Obj([])).Obj? ==> MessageFacts(msg, projects, dayOf) == Err(())
  {
  }

  /** A message's project is the one its session id maps to, "unknown" for an id no session has. */
  lemma MessageFactsProject(msg: Value, projects: map<string, string>, dayOf: DayOf)
    requires MessageFacts(msg, projects, dayOf).Ok?
    ensures var f := MessageFacts(msg, projects, dayOf).value;
      var sid := GetOr(msg.entries, "sessionId", Str(""));
      ((sid.Str? && sid.s in projects) ==> f.project == projects[sid.s]) &&
      (!(sid.Str? && sid.s in projects) ==> f.project == "unknown")
  {
  }

  /**
   * A message carries usage exactly when `usage` is truthy; its input and
   * output token counts are then the fields' values, 0 for a missing field.
   */
  lemma MessageFactsUsage(msg: Value, projects: map<string, string>, dayOf: DayOf)
    requires MessageFacts(msg, projects, dayOf).Ok?
    ensures var f := MessageFacts(msg, projects, dayOf).value;
      var u := GetOr(GetOr(msg.entries, "message", Obj([])).entries, "usage", Null);
      (f.usage.Some? <==> Truthy(u)) &&
      (f.usage.Some? ==>
        u.Obj? &&
        (!HasKey(u.entries, "input_tokens") ==> f.usage.value.inputTokens == 0) &&
        (HasKey(u.entries, "input_tokens") ==> Get(u.entries, "input_tokens") == Some(Int(f.usage.value.inputTokens))) &&
        (!HasKey(u.entries, "output_tokens") ==> f.usage.value.outputTokens == 0) &&
        (HasKey(u.entries, "output_tokens") ==> Get(u.entries, "output_tokens") == Some(Int(f.usage.value.outputTokens))))
  {
  }

  /**
   * A message carries a branch exactly when `gitBranch` is truthy, and tools
   * only from a list-valued `content`.
   */
  lemma MessageFactsBranchTools(msg: Value, projects: map<string, string>, dayOf: DayOf)
    requires MessageFacts(msg, projects, dayOf).Ok?
    ensures var f := MessageFacts(msg, projects, dayOf).value;
      var d := msg.entries;
      (f.branch.Some? <==> Truthy(GetOr(d, "gitBranch", Null))) &&
      (f.branch.Some? ==> f.branch.value == GetOr(d, "gitBranch", Null)) &&
      (!GetOr(GetOr(d, "message", Obj([])).entries, "content", Null).List? ==> f.tools == []) &&
      (forall k :: 0 <= k < |f.tools| ==> Hashable(f.tools[k]))
  {
  }

  // ---------------------------------------------------------------------------
  // analyze_sessions: the counters
  // ---------------------------------------------------------------------------

  /** A per-key integer total, absent keys reading 0 (a `defaultdict(int)` entry). */
  function Total(m: map<string, int>, k: string): int {
    if k in m then m[k] else 0
  }

  function AddTo(m: map<string, int>, k: string, n: int): (r: map<string, int>)
    ensures forall j :: Total(r, j) == Total(m, j) + (if j == k then n else 0)
    ensures r.Keys == m.Keys + {k}
  {
    m[k := Total(m, k) + n]
  }

  /** The counters of `analyze_sessions` after some messages. */
  datatype Tally = Tally(inputTokens: int, outputTokens: int, cacheReadTokens: int, cacheCreationTokens: int,
                         models: multiset<Value>, branches: multiset<Value>, tools: multiset<Value>,
                         projectMessages: multiset<string>, projectTokens: map<string, int>,
                         dayMessages: multiset<string>, dayTokens: map<string, int>)

  const NoTally := Tally(0, 0, 0, 0, multiset{}, multiset{}, multiset{}, multiset{}, map[], multiset{}, map[])

  /** What one message adds to the token totals and to the counts (the per-key token totals aside). */
  function Gain(f: Facts): Tally {
    var branches := if f.branch.Some? then multiset{f.branch.value} else multiset{};
    match f.usage
      case None => Tally(0, 0, 0, 0, multiset{}, branches, multiset(f.tools), multiset{}, map[], multiset{}, map[])
      case Some(u) =>
        Tally(u.inputTokens, u.outputTokens, u.cacheReadTokens, u.cacheCreationTokens, multiset{u.model}, branches,
              multiset(f.tools), multiset{f.project}, map[], multiset{u.day}, map[])
  }

  /** The counter updates of one message: its usage, its branch and its tools. */
  function Count(t: Tally, f: Facts): Tally {
    var g := Gain(f);
    var tokens := if f.usage.Some? then f.usage.value.inputTokens + f.usage.value.outputTokens else 0;
    Tally(t.inputTokens + g.inputTokens, t.outputTokens + g.outputTokens,
          t.cacheReadTokens + g.cacheReadTokens, t.cacheCreationTokens + g.cacheCreationTokens,
          t.models + g.models, t.branches + g.branches, t.tools + g.tools,
          t.projectMessages + g.projectMessages,
          if f.usage.Some? then AddTo(t.projectTokens, f.project, tokens) else t.projectTokens,
          t.dayMessages + g.dayMessages,
          if f.usage.Some? then AddTo(t.dayTokens, f.usage.value.day, tokens) else t.dayTokens)
  }

  /** The counters after the messages whose contributions are `fs`, in order. */
  function TallyOf(fs: seq<Facts>): Tally
    decreases |fs|
  {
    if |fs| == 0 then NoTally else Count(TallyOf(fs[..|fs| - 1]), fs[|fs| - 1])
  }

  /** The number of messages carrying usage. */
  function UsageCount(fs: seq<Facts>): nat
    decreases |fs|
  {
    if |fs| == 0 then 0 else UsageCount(fs[..|fs| - 1]) + (if fs[|fs| - 1].usage.Some? then 1 else 0)
  }

  /** The tokens (input plus output) of the usage-carrying messages attributed to `project`. */
  function ProjectTokens(fs: seq<Facts>, project: string): int
    decreases |fs|
  {
    if |fs| == 0 then 0
    else
      var f := fs[|fs| - 1];
      ProjectTokens(fs[..|fs| - 1], project) +
        (if f.usage.Some? && f.project == project then f.usage.value.inputTokens + f.usage.value.outputTokens else 0)
  }

  /** The token totals and the counts of `t` are those of `a` and `b` added up. */
  predicate Adds(t: Tally, a: Tally, b: Tally) {
    t.inputTokens == a.inputTokens + b.inputTokens &&
    t.outputTokens == a.outputTokens + b.outputTokens &&
    t.cacheReadTokens == a.cacheReadTokens + b.cacheReadTokens &&
    t.cacheCreationTokens == a.cacheCreationTokens + b.cacheCreationTokens &&
    t.models == a.models + b.models && t.branches == a.branches + b.branches &&
    t.tools == a.tools + b.tools && t.projectMessages == a.projectMessages + b.projectMessages &&
    t.dayMessages == a.dayMessages + b.dayMessages
  }

  /** One message on its own counts its token counts, its model, its branch and its tools. */
  lemma TallySingle(f: Facts)
    ensures var t := TallyOf([f]);
      t.tools == multiset(f.tools) &&
      t.branches == (if f.branch.Some? then multiset{f.branch.value} else multiset{}) &&
      (f.usage.None? ==> t.inputTokens == 0 && t.outputTokens == 0 && t.models == multiset{}) &&
      (f.usage.Some? ==> t.inputTokens == f.usage.value.inputTokens && t.outputTokens == f.usage.value.outputTokens &&
                         t.cacheReadTokens == f.usage.value.cacheReadTokens &&
                         t.cacheCreationTokens == f.usage.value.cacheCreationTokens &&
                         t.models == multiset{f.usage.value.model})
  {
    assert [f][..0] == [];
  }

  /**
   * The counters add up over the messages: the totals and counts of two
   * stretches of messages, one after the other, are the sums of theirs.
   */
  lemma {:induction false} TallyConcat(a: seq<Facts>, b: seq<Facts>)
    ensures Adds(TallyOf(a + b), TallyOf(a), TallyOf(b))
    decreases |b|
  {
    if |b| == 0 {
      assert a + b == a;
    } else {
      var b' := b[..|b| - 1];
      var f := b[|b| - 1];
      assert (a + b)[..|a + b| - 1] == a + b';
      assert (a + b)[|a + b| - 1] == f;
      TallyConcat(a, b');
    }
  }

  /**
   * Every message carrying usage is counted once per model, once per project
   * and once per day: the three tallies have as many entries as there are
   * such messages.
   */
  lemma {:induction false} TallyCountsUsage(fs: seq<Facts>)
    ensures |TallyOf(fs).models| == UsageCount(fs)
    ensures |TallyOf(fs).projectMessages| == UsageCount(fs)
    ensures |TallyOf(fs).dayMessages| == UsageCount(fs)
    decreases |fs|
  {
    if |fs| > 0 {
      TallyCountsUsage(fs[..|fs| - 1]);
    }
  }

  /** A project's token total is the input plus output tokens of its usage-carrying messages. */
  lemma {:induction false} TallyProjectTokens(fs: seq<Facts>, project: string)
    ensures Total(TallyOf(fs).projectTokens, project) == ProjectTokens(fs, project)
    decreases |fs|
  {
    if |fs| > 0 {
      var init, f := fs[..|fs| - 1], fs[|fs| - 1];
      TallyProjectTokens(init, project);
      ProjectTokensStep(TallyOf(init), f, project);
    }
  }

  /** One message adds its input plus output tokens to its project's total, if it carries usage. */
  lemma ProjectTokensStep(t: Tally, f: Facts, project: string)
    ensures Total(Count(t, f).projectTokens, project) == Total(t.projectTokens, project) +
      (if f.usage.Some? && f.project == project then f.usage.value.inputTokens + f.usage.value.outputTokens else 0)
  {
  }

  // ---------------------------------------------------------------------------
  // analyze_sessions
  // ---------------------------------------------------------------------------

  function MessageLists(sessions: seq<Session>): seq<seq<Value>> {
    seq(|sessions|, i requires 0 <= i < |sessions| => sessions[i].messages)
  }

  /** `all_messages`: the messages of all sessions, session after session. */
  function AllMessages(sessions: seq<Session>): seq<Value> {
    Flatten(MessageLists(sessions))
  }

  /** `{session['session_id']: session['project_name'] for session in sessions}`: a later session wins. */
  function ProjectMap(sessions: seq<Session>): map<string, string>
    decreases |sessions|
  {
    if |sessions| == 0 then map[]
    else
      var last := sessions[|sessions| - 1];
      ProjectMap(sessions[..|sessions| - 1])[last.sessionId := last.projectName]
  }

  /** The map has a key per session id, and maps it to the project of the last session with that id. */
  lemma {:induction false} ProjectMapSpec(sessions: seq<Session>)
    ensures forall id :: id in ProjectMap(sessions) <==> exists i :: 0 <= i < |sessions| && sessions[i].sessionId == id
    ensures forall i :: (0 <= i < |sessions| &&
      (forall j :: i < j < |sessions| ==> sessions[j].sessionId != sessions[i].sessionId)) ==>
      ProjectMap(sessions)[sessions[i].sessionId] == sessions[i].projectName
    decreases |sessions|
  {
    if |sessions| > 0 {
      var init := sessions[..|sessions| - 1];
      ProjectMapSpec(init);
      forall id | id in ProjectMap(sessions)
        ensures exists i :: 0 <= i < |sessions| && sessions[i].sessionId == id
      {
        if id != sessions[|sessions| - 1].sessionId {
          var i :| 0 <= i < |init| && init[i].sessionId == id;
          assert sessions[i] == init[i];
        }
      }
      forall id | exists i :: 0 <= i < |sessions| && sessions[i].sessionId == id
        ensures id in ProjectMap(sessions)
      {
        var i :| 0 <= i < |sessions| && sessions[i].sessionId == id;
        if i < |init| {
          assert init[i] == sessions[i];
        }
      }
      forall i | 0 <= i < |sessions| &&
        (forall j :: i < j < |sessions| ==> sessions[j].sessionId != sessions[i].sessionId)
        ensures ProjectMap(sessions)[sessions[i].sessionId] == sessions[i].projectName
      {
        if i < |init| {
          assert init[i] == sessions[i];
          assert forall j :: i < j < |init| ==> init[j] == sessions[j];
        }
      }
    }
  }

  /** The figures of the `stats` dict. */
  datatype SessionStats = SessionStats(totalSessions: nat, totalMessages: nat,
                                       totalInputTokens: int, totalOutputTokens: int,
                                       totalCacheReadTokens: int, totalCacheCreationTokens: int,
                                       avgTokensPerMessage: real)

  /** `avg_tokens_per_message`: 0 without messages. */
  function Average(total: int, n: nat): real {
    if n > 0 then total as real / n as real else 0.0
  }

  /** The average is 0 for no messages; otherwise, times the message count, it gives the total back. */
  lemma AverageSpec(total: int, n: nat)
    ensures n == 0 ==> Average(total, n) == 0.0
    ensures n > 0 ==> Average(total, n) * n as real == total as real
  {
  }

  /** The contribution of each message, in order, up to the first that raises. */
  function AllFacts(msgs: seq<Value>, projects: map<string, string>, dayOf: DayOf): Result<seq<Facts>, ()> {
    Traverse(msgs, m => MessageFacts(m, projects, dayOf))
  }

  /** The counters after all messages, or the error of the first message that raises. */
  function TallyAll(msgs: seq<Value>, projects: map<string, string>, dayOf: DayOf): Result<Tally, ()> {
    match AllFacts(msgs, projects, dayOf)
      case Err(_) => Err(())
      case Ok(fs) => Ok(TallyOf(fs))
  }

  /** The `stats` figures, from the counters. */
  function StatsOf(sessions: nat, messages: nat, t: Tally): SessionStats {
    SessionStats(sessions, messages, t.inputTokens, t.outputTokens, t.cacheReadTokens, t.cacheCreationTokens,
                 Average(t.inputTokens + t.outputTokens, messages))
  }

  /**
   * The model, branch and tool tables can be sorted by `count`: a pandas
   * DataFrame built from an empty list has no `count` column, so
   * `sort_values('count')` raises `KeyError`. The project table is empty
   * exactly when the model table is, so it adds no condition.
   */
  predicate Sortable(t: Tally) {
    |t.models| > 0 && |t.branches| > 0 && |t.tools| > 0
  }

  /**
   * The models are counted exactly when some message carries usage, the
   * branches when some message has a branch, the tools when some message
   * uses a tool.
   */
  lemma TallyNonEmpty(fs: seq<Facts>)
    ensures |TallyOf(fs).models| > 0 <==> exists i :: 0 <= i < |fs| && fs[i].usage.Some?
    ensures |TallyOf(fs).branches| > 0 <==> exists i :: 0 <= i < |fs| && fs[i].branch.Some?
    ensures |TallyOf(fs).tools| > 0 <==> exists i :: 0 <= i < |fs| && |fs[i].tools| > 0
  {
    ModelsNonEmpty(fs);
    BranchesNonEmpty(fs);
    ToolsNonEmpty(fs);
  }

  lemma {:induction false} ModelsNonEmpty(fs: seq<Facts>)
    ensures |TallyOf(fs).models| > 0 <==> exists i :: 0 <= i < |fs| && fs[i].usage.Some?
    decreases |fs|
  {
    if |fs| > 0 {
      var init, f := fs[..|fs| - 1], fs[|fs| - 1];
      ModelsNonEmpty(init);
      assert TallyOf(fs).models == TallyOf(init).models + Gain(f).models;
      if f.usage.Some? {
        assert Gain(f).models == multiset{f.usage.value.model};
        assert fs[|fs| - 1].usage.Some?;
      } else {
        assert Gain(f).models == multiset{};
        ExistsInInit(fs, init, (g: Facts) => g.usage.Some?);
      }
    }
  }

  lemma {:induction false} BranchesNonEmpty(fs: seq<Facts>)
    ensures |TallyOf(fs).branches| > 0 <==> exists i :: 0 <= i < |fs| && fs[i].branch.Some?
    decreases |fs|
  {
    if |fs| > 0 {
      var init, f := fs[..|fs| - 1], fs[|fs| - 1];
      BranchesNonEmpty(init);
      assert TallyOf(fs).branches == TallyOf(init).branches + Gain(f).branches;
      if f.branch.Some? {
        assert Gain(f).branches == multiset{f.branch.value};
        assert fs[|fs| - 1].branch.Some?;
      } else {
        assert Gain(f).branches == multiset{};
        ExistsInInit(fs, init, (g: Facts) => g.branch.Some?);
      }
    }
  }

  lemma {:induction false} ToolsNonEmpty(fs: seq<Facts>)
    ensures |TallyOf(fs).tools| > 0 <==> exists i :: 0 <= i < |fs| && |fs[i].tools| > 0
    decreases |fs|
  {
    if |fs| > 0 {
      var init, f := fs[..|fs| - 1], fs[|fs| - 1];
      ToolsNonEmpty(init);
      assert TallyOf(fs).tools == TallyOf(init).tools + multiset(f.tools);
      if |f.tools| > 0 {
        assert f.tools[0] in multiset(f.tools);
        assert |fs[|fs| - 1].tools| > 0;
      } else {
        assert multiset(f.tools) == multiset{};
        ExistsInInit(fs, init, (g: Facts) => |g.tools| > 0);
      }
    }
  }

  /** When the last element fails `p`, an element satisfying `p` is one of the others. */
  lemma ExistsInInit<T>(s: seq<T>, init: seq<T>, p: T -> bool)
    requires |s| > 0 && init == s[..|s| - 1] && !p(s[|s| - 1])
    ensures (exists i :: 0 <= i < |s| && p(s[i])) <==> (exists i :: 0 <= i < |init| && p(init[i]))
  {
    if exists i :: 0 <= i < |s| && p(s[i]) {
      var i :| 0 <= i < |s| && p(s[i]);
      assert init[i] == s[i];
    }
    if exists i :: 0 <= i < |init| && p(init[i]) {
      var i :| 0 <= i < |init| && p(init[i]);
      assert init[i] == s[i];
    }
  }

  /** `analyze_sessions(sessions)`: the `stats` figures and the counters, or the error of a raise. */
  function Analysis(sessions: seq<Session>, dayOf: DayOf): Result<(SessionStats, Tally), ()> {
    var msgs := AllMessages(sessions);
    match TallyAll(msgs, ProjectMap(sessions), dayOf)
      case Err(_) => Err(())
      case Ok(t) => if Sortable(t) then Ok((StatsOf(|sessions|, |msgs|, t), t)) else Err(())
  }

  /**
   * The counting loop gets through exactly when no message raises, and the
   * contributions are then one per message in order. The analysis succeeds
   * exactly when, besides, some message carries usage, some has a branch
   * and some uses a tool; its counters are then those of the contributions.
   */
  lemma AnalysisOk(sessions: seq<Session>, dayOf: DayOf)
    ensures var msgs := AllMessages(sessions);
      AllFacts(msgs, ProjectMap(sessions), dayOf).Ok? <==>
        forall i :: 0 <= i < |msgs| ==> MessageFacts(msgs[i], ProjectMap(sessions), dayOf).Ok?
    ensures var msgs := AllMessages(sessions);
      AllFacts(msgs, ProjectMap(sessions), dayOf).Ok? ==>
        var fs := AllFacts(msgs, ProjectMap(sessions), dayOf).value;
        |fs| == |msgs| &&
        (forall i :: 0 <= i < |msgs| ==> fs[i] == MessageFacts(msgs[i], ProjectMap(sessions), dayOf).value) &&
        (Analysis(sessions, dayOf).Ok? <==>
          (exists i :: 0 <= i < |fs| && fs[i].usage.Some?) &&
          (exists i :: 0 <= i < |fs| && fs[i].branch.Some?) &&
          (exists i :: 0 <= i < |fs| && |fs[i].tools| > 0)) &&
        (Analysis(sessions, dayOf).Ok? ==> Analysis(sessions, dayOf).value.1 == TallyOf(fs))
    ensures var msgs := AllMessages(sessions);
      AllFacts(msgs, ProjectMap(sessions), dayOf).Err? ==> Analysis(sessions, dayOf).Err?
  {
    var msgs, projects := AllMessages(sessions), ProjectMap(sessions);
    TraverseSpec(msgs, m => MessageFacts(m, projects, dayOf));
    var facts := AllFacts(msgs, projects, dayOf);
    if facts.Ok? {
      AnalysisSortable(sessions, dayOf, facts.value);
    }
  }

  /** Once the counting gets through, the analysis succeeds exactly when the three tables are non-empty. */
  lemma AnalysisSortable(sessions: seq<Session>, dayOf: DayOf, fs: seq<Facts>)
    requires AllFacts(AllMessages(sessions), ProjectMap(sessions), dayOf) == Ok(fs)
    ensures Analysis(sessions, dayOf).Ok? <==>
      (exists i :: 0 <= i < |fs| && fs[i].usage.Some?) &&
      (exists i :: 0 <= i < |fs| && fs[i].branch.Some?) &&
      (exists i :: 0 <= i < |fs| && |fs[i].tools| > 0)
    ensures Analysis(sessions, dayOf).Ok? ==> Analysis(sessions, dayOf).value.1 == TallyOf(fs)
  {
    AnalysisOfParts(sessions, dayOf, AllMessages(sessions), ProjectMap(sessions), Ok(TallyOf(fs)));
    TallyNonEmpty(fs);
  }

  /**
   * `total_sessions` counts the sessions and `total_messages` the messages
   * of all of them; the token totals are those of the counters; and the
   * average spreads the input plus output tokens over the messages (see
   * `AverageSpec`).
   */
  lemma AnalysisFigures(sessions: seq<Session>, dayOf: DayOf, st: SessionStats, t: Tally)
    requires Analysis(sessions, dayOf) == Ok((st, t))
    ensures st.totalSessions == |sessions|
    ensures st.totalMessages == SumSizes(MessageLists(sessions))
    ensures st.totalInputTokens == t.inputTokens && st.totalOutputTokens == t.outputTokens
    ensures st.totalCacheReadTokens == t.cacheReadTokens && st.totalCacheCreationTokens == t.cacheCreationTokens
    ensures st.avgTokensPerMessage == Average(t.inputTokens + t.outputTokens, st.totalMessages)
  {
    var msgs := AllMessages(sessions);
    assert t == TallyAll(msgs, ProjectMap(sessions), dayOf).value;
    assert st == StatsOf(|sessions|, |msgs|, t);
    FlattenLength(MessageLists(sessions));
    FiguresOf(st, t, |sessions|, |msgs|, SumSizes(MessageLists(sessions)));
  }

  /** The figures of `StatsOf`: the two counts, the counters' token totals, and their average. */
  lemma FiguresOf(st: SessionStats, t: Tally, sessions: nat, messages: nat, total: nat)
    requires st == StatsOf(sessions, messages, t) && messages == total
    ensures st.totalSessions == sessions && st.totalMessages == total &&
      st.totalInputTokens == t.inputTokens && st.totalOutputTokens == t.outputTokens &&
      st.totalCacheReadTokens == t.cacheReadTokens && st.totalCacheCreationTokens == t.cacheCreationTokens &&
      st.avgTokensPerMessage == Average(t.inputTokens + t.outputTokens, st.totalMessages)
  {
  }

  /** `analyze_sessions`: the three loops (messages, project map, counters) and the average. */
  method AnalyzeSessions(sessions: seq<Session>, dayOf: DayOf) returns (r: Result<(SessionStats, Tally), ()>)
    ensures r == Analysis(sessions, dayOf)
  {
    var all := CollectMessages(sessions);
    var projects := BuildProjectMap(sessions);
    var tally := CountMessages(all, projects, dayOf);
    AnalysisOfParts(sessions, dayOf, all, projects, tally);
    if tally.Err? {
      return Err(());
    }
    var t := tally.value;
    var stats := FinalStats(|sessions|, |all|, t);
    if |t.models| == 0 || |t.branches| == 0 || |t.tools| == 0 {
      // `sort_values('count')` on an empty DataFrame
      return Err(());
    }
    r := Ok((stats, t));
  }

  /** The analysis is put together from the messages, the project map and the counters. */
  lemma AnalysisOfParts(sessions: seq<Session>, dayOf: DayOf, all: seq<Value>, projects: map<string, string>,
                        tally: Result<Tally, ()>)
    requires all == AllMessages(sessions) && projects == ProjectMap(sessions) && tally == TallyAll(all, projects, dayOf)
    ensures tally.Err? ==> Analysis(sessions, dayOf) == Err(())
    ensures tally.Ok? && Sortable(tally.value) ==>
      Analysis(sessions, dayOf) == Ok((StatsOf(|sessions|, |all|, tally.value), tally.value))
    ensures tally.Ok? && !Sortable(tally.value) ==> Analysis(sessions, dayOf) == Err(())
  {
  }

  /** The `stats` dict after the loop, with `avg_tokens_per_message` set by `if stats['total_messages'] > 0`. */
  method FinalStats(sessions: nat, messages: nat, t: Tally) returns (stats: SessionStats)
    ensures stats == StatsOf(sessions, messages, t)
  {
    var avg := 0.0;
    if messages > 0 {
      avg := (t.inputTokens + t.outputTokens) as real / messages as real;
    }
    stats := SessionStats(sessions, messages, t.inputTokens, t.outputTokens, t.cacheReadTokens, t.cacheCreationTokens, avg);
  }

  /** `all_messages.extend(session['messages'])` over the sessions. */
  method CollectMessages(sessions: seq<Session>) returns (all: seq<Value>)
    ensures all == AllMessages(sessions)
  {
    all := [];
    var i := 0;
    while i < |sessions|
      invariant i <= |sessions|
      invariant all == Flatten(MessageLists(sessions[..i]))
    {
      assert MessageLists(sessions[..i + 1]) == MessageLists(sessions[..i]) + [sessions[i].messages];
      FlattenAppend(MessageLists(sessions[..i]), sessions[i].messages);
      all := all + sessions[i].messages;
      i := i + 1;
    }
    assert sessions[..i] == sessions;
  }

  /** The dict comprehension `session_project_map`. */
  method BuildProjectMap(sessions: seq<Session>) returns (projects: map<string, string>)
    ensures projects == ProjectMap(sessions)
  {
    projects := map[];
    var i := 0;
    while i < |sessions|
      invariant i <= |sessions|
      invariant projects == ProjectMap(sessions[..i])
    {
      assert sessions[..i + 1][..i] == sessions[..i];
      projects := projects[sessions[i].sessionId := sessions[i].projectName];
      i := i + 1;
    }
    assert sessions[..i] == sessions;
  }

  /** The loop over all messages, updating `stats` and the counters; it stops at the first message that raises. */
  method CountMessages(msgs: seq<Value>, projects: map<string, string>, dayOf: DayOf) returns (r: Result<Tally, ()>)
    ensures r == TallyAll(msgs, projects, dayOf)
  {
    var g := m => MessageFacts(m, projects, dayOf);
    ghost var fs: seq<Facts> := [];
    var t := NoTally;
    var i := 0;
    while i < |msgs|
      invariant i <= |msgs|
      invariant Traverse(msgs[..i], g) == Ok(fs)
      invariant t == TallyOf(fs)
    {
      TraverseStep(msgs, g, i);
      var f := MessageFacts(msgs[i], projects, dayOf);
      if f.Err? {
        TraverseFirstError(msgs, g, i);
        return Err(());
      }
      t := CountMessage(t, f.value);
      assert (fs + [f.value])[..|fs|] == fs;
      fs := fs + [f.value];
      i := i + 1;
    }
    assert msgs[..i] == msgs;
    r := Ok(t);
  }

  /** The body of the message loop: the usage block, the branch count, then the tool counts. */
  method CountMessage(t: Tally, f: Facts) returns (t': Tally)
    ensures t' == Count(t, f)
  {
    var t1 := t;
    if f.usage.Some? {
      t1 := CountUsage(t, f.project, f.usage.value);
    } else {
      NothingAdded(t.models);
      NothingAdded(t.projectMessages);
      NothingAdded(t.dayMessages);
    }
    var branches := t.branches;
    if f.branch.Some? {
      branches := branches + multiset{f.branch.value};
    } else {
      NothingAdded(t.branches);
    }
    var tools := CountTools(t.tools, f.tools);
    t' := t1.(branches := branches, tools := tools);
  }

  lemma NothingAdded<T>(m: multiset<T>)
    ensures m + multiset{} == m
  {
  }

  /** The `if msg.get('message', {}).get('usage')` block: the `+=` updates of `stats` and of the counters. */
  method CountUsage(t: Tally, project: string, u: Usage) returns (t': Tally)
    ensures t' == Count(t, Facts(project, Some(u), None, []))
    ensures t'.branches == t.branches && t'.tools == t.tools
  {
    var inputTokens := t.inputTokens + u.inputTokens;
    var outputTokens := t.outputTokens + u.outputTokens;
    var cacheReadTokens := t.cacheReadTokens + u.cacheReadTokens;
    var cacheCreationTokens := t.cacheCreationTokens + u.cacheCreationTokens;
    var tokens := u.inputTokens + u.outputTokens;
    var models := t.models + multiset{u.model};
    var dayTokens := AddTo(t.dayTokens, u.day, tokens);
    var dayMessages := t.dayMessages + multiset{u.day};
    var projectMessages := t.projectMessages + multiset{project};
    var projectTokens := AddTo(t.projectTokens, project, tokens);
    t' := Tally(inputTokens, outputTokens, cacheReadTokens, cacheCreationTokens, models, t.branches, t.tools,
                projectMessages, projectTokens, dayMessages, dayTokens);
  }

  /** The inner loop `for item in content`, adding one to a tool's count per use. */
  method CountTools(counts: multiset<Value>, tools: seq<Value>) returns (r: multiset<Value>)
    ensures r == counts + multiset(tools)
  {
    r := counts;
    var k := 0;
    while k < |tools|
      invariant k <= |tools|
      invariant r == counts + multiset(tools[..k])
    {
      assert tools[..k + 1] == tools[..k] + [tools[k]];
      r := r + multiset{tools[k]};
      k := k + 1;
    }
    assert tools[..k] == tools;
  }
}
