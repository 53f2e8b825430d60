/**
 * Option and Result datatypes shared by every module of the model, and
 * `Traverse`: a Python loop that builds one item per element and stops at
 * the first element that raises.
 */
module Common {

  /** A value that may be absent: Python's `None` versus a present value. */
  datatype Option<+T> = None | Some(value: T)

  /** The outcome of an operation that either returns a value or raises. */
  datatype Result<+T, +E> = Ok(value: T) | Err(error: E)

  function Min(a: int, b: int): int { if a <= b then a else b }

  function Max(a: int, b: int): int { if a >= b then a else b }

  /** The position of the first item whose key is `k`, where a dict keyed by `key` keeps that item's entry. */
  function FirstKeyed<T>(s: seq<T>, key: T -> string, k: string): (r: Option<nat>)
    ensures r.Some? ==> r.value < |s| && key(s[r.value]) == k
    ensures r.None? ==> forall i :: 0 <= i < |s| ==> key(s[i]) != k
  {
    if |s| == 0 then None
    else if key(s[0]) == k then Some(0)
    else match FirstKeyed(s[1..], key, k)
      case None => None
      case Some(i) => Some(i + 1)
  }

  /** The first item with key `k` is the one `FirstKeyed` finds. */
  lemma {:induction false} FirstKeyedAt<T>(s: seq<T>, key: T -> string, i: nat, k: string)
    requires i < |s| && key(s[i]) == k
    requires forall j :: 0 <= j < i ==> key(s[j]) != k
    ensures FirstKeyed(s, key, k) == Some(i)
    decreases i
  {
    if i > 0 {
      assert forall j :: 0 <= j < i - 1 ==> key(s[1..][j]) != k by {
        forall j | 0 <= j < i - 1 ensures key(s[1..][j]) != k {
          assert s[1..][j] == s[j + 1];
        }
      }
      FirstKeyedAt(s[1..], key, i - 1, k);
    }
  }

  lemma ConcatAssoc<T>(x: seq<T>, y: seq<T>, z: seq<T>)
    ensures (x + y) + z == x + (y + z)
  {
  }

  /**
   * `[f(x) for x in xs]` where a call may raise: the items in order, or the
   * error of the first call that raises.
   */
  function Traverse<A, B, E>(xs: seq<A>, f: A -> Result<B, E>): Result<seq<B>, E>
    decreases |xs|
  {
    if |xs| == 0 then Ok([])
    else
      match Traverse(xs[..|xs| - 1], f)
        case Err(e) => Err(e)
        case Ok(ys) =>
          match f(xs[|xs| - 1])
            case Err(e) => Err(e)
            case Ok(y) => Ok(ys + [y])
  }

  /**
   * The traversal succeeds exactly when every call does, and then holds the
   * items in order; otherwise it carries the error of the first call that
   * raises.
   */
  lemma {:induction false} TraverseSpec<A, B, E>(xs: seq<A>, f: A -> Result<B, E>)
    ensures Traverse(xs, f).Ok? <==> forall i :: 0 <= i < |xs| ==> f(xs[i]).Ok?
    ensures Traverse(xs, f).Ok? ==>
      |Traverse(xs, f).value| == |xs| &&
      forall i :: 0 <= i < |xs| ==> Traverse(xs, f).value[i] == f(xs[i]).value
    ensures Traverse(xs, f).Err? ==>
      exists i :: 0 <= i < |xs| && f(xs[i]).Err? && Traverse(xs, f).error == f(xs[i]).error &&
        forall j :: 0 <= j < i ==> f(xs[j]).Ok?
    decreases |xs|
  {
    if |xs| > 0 {
      var n := |xs| - 1;
      var init := xs[..n];
      TraverseSpec(init, f);
      assert forall i :: 0 <= i < n ==> init[i] == xs[i];
    }
  }

  /** One more pass of the loop: the traversal of `xs[..i + 1]` extends that of `xs[..i]`. */
  lemma TraverseStep<A, B, E>(xs: seq<A>, f: A -> Result<B, E>, i: nat)
    requires i < |xs|
    ensures Traverse(xs[..i + 1], f) ==
      match Traverse(xs[..i], f)
        case Err(e) => Err(e)
        case Ok(ys) => match f(xs[i]) case Err(e) => Err(e) case Ok(y) => Ok(ys + [y])
  {
    assert xs[..i + 1][..i] == xs[..i];
  }

  /** When the calls before `i` succeed and the one at `i` raises, the traversal raises that error. */
  lemma TraverseFirstError<A, B, E>(xs: seq<A>, f: A -> Result<B, E>, i: nat)
    requires i < |xs| && Traverse(xs[..i], f).Ok? && f(xs[i]).Err?
    ensures Traverse(xs, f) == Err(f(xs[i]).error)
  {
    TraverseSpec(xs[..i], f);
    TraverseSpec(xs, f);
    assert forall j :: 0 <= j < i ==> xs[..i][j] == xs[j];
    var j :| 0 <= j < |xs| && f(xs[j]).Err? && Traverse(xs, f).error == f(xs[j]).error &&
      forall k :: 0 <= k < j ==> f(xs[k]).Ok?;
    assert j == i;
  }
}
