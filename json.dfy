/**
 * Parsed JSON (and YAML) values as the repository's Python code sees them:
 * `None`, booleans, integers, floats, strings, lists and dicts. A dict is an
 * association list in insertion order, the order Python iterates it in;
 * lookups take the first entry with the key, and every dict the model builds
 * keeps its keys distinct.
 */
module Json {
  import opened Common
  import opened Strings

  datatype Value =
    | Null
    | Bool(b: bool)
    | Int(i: int)
      /** A float: Python's `str()` text for it, and the number it denotes. */
    | Float(repr: string, r: real)
    | Str(s: string)
    | List(items: seq<Value>)
    | Obj(entries: seq<Entry>)

  datatype Entry = Entry(key: string, val: Value)

  type Dict = seq<Entry>

  function Keys(d: Dict): (ks: seq<string>)
    ensures |ks| == |d|
    ensures forall i :: 0 <= i < |d| ==> ks[i] == d[i].key
  {
    if |d| == 0 then [] else [d[0].key] + Keys(d[1..])
  }

  /** No key occurs twice: true of every dict Python builds. */
  predicate DistinctKeys(d: Dict) {
    forall i, j :: 0 <= i < j < |d| ==> d[i].key != d[j].key
  }

  /** The position of `k` in `d`, if `k` is a key. */
  function IndexOf(d: Dict, k: string): (r: Option<nat>)
    ensures r.Some? ==> r.value < |d| && d[r.value].key == k
    ensures r.Some? ==> forall j :: 0 <= j < r.value ==> d[j].key != k
    ensures r.None? ==> forall j :: 0 <= j < |d| ==> d[j].key != k
  {
    if |d| == 0 then None
    else if d[0].key == k then Some(0)
    else match IndexOf(d[1..], k)
      case None => None
      case Some(j) => Some(j + 1)
  }

  /** Python's `k in d` for a dict. */
  predicate HasKey(d: Dict, k: string) {
    IndexOf(d, k).Some?
  }

  /** Python's `d[k]`: `None` stands for the `KeyError`. */
  function Get(d: Dict, k: string): (r: Option<Value>)
    ensures r.Some? <==> HasKey(d, k)
  {
    match IndexOf(d, k)
      case None => None
      case Some(i) => Some(d[i].val)
  }

  /** `d[k]` is the value of the first entry with key `k`. */
  lemma GetAt(d: Dict, i: nat, k: string)
    requires i < |d| && d[i].key == k
    requires forall j :: 0 <= j < i ==> d[j].key != k
    ensures Get(d, k) == Some(d[i].val)
  {
    var r := IndexOf(d, k);
    assert r.Some?;
    assert r.value == i;
  }

  /** Python's `d.get(k, default)`. */
  function GetOr(d: Dict, k: string, default: Value): Value {
    match Get(d, k)
      case None => default
      case Some(v) => v
  }

  /** Python's `d[k] = v`: an existing key keeps its place, a new one goes last. */
  function Set(d: Dict, k: string, v: Value): (r: Dict)
    ensures HasKey(d, k) ==> Keys(r) == Keys(d)
    ensures !HasKey(d, k) ==> Keys(r) == Keys(d) + [k]
    ensures DistinctKeys(d) ==> DistinctKeys(r)
  {
    match IndexOf(d, k)
      case Some(i) => d[i := Entry(k, v)]
      case None => d + [Entry(k, v)]
  }

  /** Looking a key up goes entry by entry: the first entry, then the rest. */
  lemma GetFirst(d: Dict, k: string)
    requires |d| > 0
    ensures Get(d, k) == if d[0].key == k then Some(d[0].val) else Get(d[1..], k)
  {
  }

  /** After `d[k] = v`, `d[k]` is `v` and every other key reads as before. */
  lemma {:induction false} GetSet(d: Dict, k: string, v: Value, k2: string)
    ensures Get(Set(d, k, v), k2) == if k2 == k then Some(v) else Get(d, k2)
    decreases |d|
  {
    var r := Set(d, k, v);
    if |d| == 0 {
      assert r == [Entry(k, v)];
      GetFirst(r, k2);
    } else {
      GetFirst(d, k2);
      GetFirst(r, k2);
      if d[0].key == k {
        assert r == [Entry(k, v)] + d[1..];
        assert r[1..] == d[1..];
      } else {
        SetFirst(d, k, v);
        assert r[1..] == Set(d[1..], k, v);
        GetSet(d[1..], k, v, k2);
      }
    }
  }

  /** `d[k] = v` for a key other than the first leaves the first entry in front. */
  lemma SetFirst(d: Dict, k: string, v: Value)
    requires |d| > 0 && d[0].key != k
    ensures Set(d, k, v) == [d[0]] + Set(d[1..], k, v)
  {
    if IndexOf(d[1..], k).Some? {
      SetFirstFound(d, k, v, IndexOf(d[1..], k).value);
    } else {
      SetFirstNew(d, k, v);
    }
  }

  lemma SetFirstFound(d: Dict, k: string, v: Value, i: nat)
    requires |d| > 0 && d[0].key != k && IndexOf(d[1..], k) == Some(i)
    ensures Set(d, k, v) == [d[0]] + Set(d[1..], k, v)
  {
    var e, t := Entry(k, v), d[1..];
    assert IndexOf(d, k) == Some(i + 1);
    assert Set(d, k, v) == d[i + 1 := e];
    assert Set(t, k, v) == t[i := e];
    SeqHeadUpdate(d, i, e);
  }

  lemma SetFirstNew(d: Dict, k: string, v: Value)
    requires |d| > 0 && d[0].key != k && IndexOf(d[1..], k).None?
    ensures Set(d, k, v) == [d[0]] + Set(d[1..], k, v)
  {
    var e, t := Entry(k, v), d[1..];
    assert IndexOf(d, k) == None;
    assert Set(d, k, v) == d + [e];
    assert Set(t, k, v) == t + [e];
    SeqHeadAppend(d, e);
  }

  /** Updating past the head of a sequence updates its tail. */
  lemma SeqHeadUpdate<T>(s: seq<T>, i: nat, x: T)
    requires i + 1 < |s|
    ensures s[i + 1 := x] == [s[0]] + s[1..][i := x]
  {
  }

  /** Appending to a sequence appends to its tail. */
  lemma SeqHeadAppend<T>(s: seq<T>, x: T)
    requires |s| > 0
    ensures s + [x] == [s[0]] + (s[1..] + [x])
  {
  }

  /** In a dict with distinct keys the first key does not occur again. */
  lemma FirstKeyNotInTail(e: Dict)
    requires |e| > 0 && DistinctKeys(e)
    ensures !HasKey(e[1..], e[0].key)
  {
    forall j | 0 <= j < |e[1..]| ensures e[1..][j].key != e[0].key {
      assert e[1..][j] == e[j + 1];
    }
  }

  /** Python's `d.update(e)`: the entries of `e` assigned one by one, in order. */
  function Update(d: Dict, e: Dict): Dict
    decreases |e|
  {
    if |e| == 0 then d else Update(Set(d, e[0].key, e[0].val), e[1..])
  }

  /**
   * After `d.update(e)`, the keys of `e` read as in `e` and every other key
   * reads as before.
   */
  lemma {:induction false} GetUpdate(d: Dict, e: Dict, k: string)
    requires DistinctKeys(e)
    ensures Get(Update(d, e), k) == if HasKey(e, k) then Get(e, k) else Get(d, k)
    decreases |e|
  {
    if |e| > 0 {
      var d' := Set(d, e[0].key, e[0].val);
      assert DistinctKeys(e[1..]);
      GetUpdate(d', e[1..], k);
      GetSet(d, e[0].key, e[0].val, k);
      if k == e[0].key {
        FirstKeyNotInTail(e);
      }
    }
  }

  /** A key present before `d.update(e)` keeps its place; new keys are added at the end. */
  lemma {:induction false} UpdateKeepsOrder(d: Dict, e: Dict)
    ensures |Keys(Update(d, e))| >= |Keys(d)|
    ensures Keys(Update(d, e))[..|d|] == Keys(d)
    decreases |e|
  {
    if |e| > 0 {
      var d' := Set(d, e[0].key, e[0].val);
      UpdateKeepsOrder(d', e[1..]);
      assert Keys(d')[..|d|] == Keys(d);
    }
  }

  lemma {:induction false} UpdateKeepsDistinct(d: Dict, e: Dict)
    requires DistinctKeys(d)
    ensures DistinctKeys(Update(d, e))
    decreases |e|
  {
    if |e| > 0 {
      UpdateKeepsDistinct(Set(d, e[0].key, e[0].val), e[1..]);
    }
  }

  /** A dict literal `{k1: v1, k2: v2, ...}` with distinct keys. */
  function FromEntries(es: seq<Entry>): Dict {
    Update([], es)
  }

  /** Python truthiness (`if v:` / `bool(v)`). */
  predicate Truthy(v: Value) {
    match v
      case Null => false
      case Bool(b) => b
      case Int(i) => i != 0
      case Float(_, r) => r != 0.0
      case Str(s) => |s| > 0
      case List(items) => |items| > 0
      case Obj(entries) => |entries| > 0
  }

  /** The number a value stands for in Python arithmetic and comparison: integers, booleans and floats. */
  function Numeric(v: Value): Option<real> {
    match v
      case Int(i) => Some(i as real)
      case Bool(b) => Some(if b then 1.0 else 0.0)
      case Float(_, r) => Some(r)
      case _ => None
  }

  /**
   * Python's `str(v)`, which is also what an f-string renders. Containers get
   * a fixed placeholder text: the records this repository loads are flat.
   */
  function Stringify(v: Value): string {
    match v
      case Null => "None"
      case Bool(b) => if b then "True" else "False"
      case Int(i) => IntToString(i)
      case Float(repr, _) => repr
      case Str(s) => s
      case List(_) => "[...]"
      case Obj(_) => "{...}"
  }

  /**
   * Python's `x in container` for a string `x`: key membership for a dict,
   * substring search for a string, element equality for a list; any other
   * container raises `TypeError` (`None`).
   */
  function PyIn(x: string, container: Value): (r: Option<bool>)
    ensures r.Some? <==> container.Obj? || container.Str? || container.List?
    ensures container.Obj? ==> r == Some(HasKey(container.entries, x))
    ensures container.List? ==> r == Some(Str(x) in container.items)
  {
    match container
      case Obj(entries) => Some(HasKey(entries, x))
      case Str(s) => Some(Contains(s, x))
      case List(items) => Some(Str(x) in items)
      case _ => None
  }

  /** Python's `container[key]` with a string key: only a dict supports it. */
  function Subscript(container: Value, key: string): (r: Option<Value>)
    ensures r.Some? ==> container.Obj? && HasKey(container.entries, key)
  {
    match container
      case Obj(entries) => Get(entries, key)
      case _ => None
  }

  /** Python's `for x in v`: list items, dict keys, or the characters of a string. */
  function PyIter(v: Value): (r: Option<seq<Value>>)
    ensures v.List? ==> r == Some(v.items)
    ensures r.None? <==> !(v.List? || v.Obj? || v.Str?)
  {
    match v
      case List(items) => Some(items)
      case Obj(entries) => Some(seq(|entries|, i requires 0 <= i < |entries| => Str(entries[i].key)))
      case Str(s) => Some(seq(|s|, i requires 0 <= i < |s| => Str([s[i]])))
      case _ => None
  }
}
