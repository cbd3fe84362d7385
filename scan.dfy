/**
 * The scans over a document's lines that recur through the extractor: the first line in a
 * window that yields a value (a loop with early return), the last line that yields one (a
 * loop that keeps reassigning), and the last line that satisfies a test (a backward search).
 */
module Scan {
  import opened Wrappers

  function Min(a: nat, b: nat): nat
  {
    if a < b then a else b
  }

  /** The first `f(xs[j])` that is not `None`, for `j` in `i .. ub - 1`. */
  function FirstSome<S, T>(xs: seq<S>, f: S -> Option<T>, i: nat, ub: nat): Option<T>
    requires ub <= |xs|
    decreases ub - i
  {
    if i >= ub then None
    else match f(xs[i])
      case Some(v) => Some(v)
      case None => FirstSome(xs, f, i + 1, ub)
  }

  /** One step of the scan: the current line's value if it has one, else the rest of the window. */
  lemma FirstSomeStep<S, T>(xs: seq<S>, f: S -> Option<T>, i: nat, ub: nat)
    requires i < ub <= |xs|
    ensures FirstSome(xs, f, i, ub) == if f(xs[i]).Some? then f(xs[i]) else FirstSome(xs, f, i + 1, ub)
  {
  }

  /**
   * The scan returns the value of the first line of the window that has one, and `None`
   * exactly when no line of the window has one.
   */
  lemma {:induction false} FirstSomeFirst<S, T>(xs: seq<S>, f: S -> Option<T>, i: nat, ub: nat)
    requires ub <= |xs|
    ensures FirstSome(xs, f, i, ub).None? <==> forall j | i <= j < ub :: f(xs[j]).None?
    ensures FirstSome(xs, f, i, ub).Some? ==>
      exists j | i <= j < ub :: FirstSome(xs, f, i, ub) == f(xs[j])
                              && forall k | i <= k < j :: f(xs[k]).None?
    decreases ub - i
  {
    if i < ub {
      FirstSomeFirst(xs, f, i + 1, ub);
      if f(xs[i]).None? && FirstSome(xs, f, i + 1, ub).Some? {
        var j :| i + 1 <= j < ub && FirstSome(xs, f, i + 1, ub) == f(xs[j])
                 && forall k | i + 1 <= k < j :: f(xs[k]).None?;
        assert forall k | i <= k < j :: f(xs[k]).None?;
      }
    }
  }

  /** A line whose value the scan reaches is the answer. */
  lemma {:induction false} FirstSomeAt<S, T>(xs: seq<S>, f: S -> Option<T>, i: nat, ub: nat, j: nat)
    requires i <= j < ub <= |xs| && f(xs[j]).Some?
    requires forall k | i <= k < j :: f(xs[k]).None?
    ensures FirstSome(xs, f, i, ub) == f(xs[j])
    decreases j - i
  {
    if i < j {
      FirstSomeAt(xs, f, i + 1, ub, j);
    }
  }

  /** Only the window matters: sequences that agree on it give the same scan. */
  lemma {:induction false} FirstSomeLocal<S, T>(a: seq<S>, b: seq<S>, f: S -> Option<T>, i: nat, ub: nat)
    requires i <= ub <= |a| && ub <= |b|
    requires a[i..ub] == b[i..ub]
    ensures FirstSome(a, f, i, ub) == FirstSome(b, f, i, ub)
    decreases ub - i
  {
    if i < ub {
      assert a[i + 1..ub] == a[i..ub][1..];
      assert b[i + 1..ub] == b[i..ub][1..];
      FirstSomeLocal(a, b, f, i + 1, ub);
      assert a[i] == a[i..ub][0];
    }
  }

  /** The last `f(xs[j])` that is not `None`, for `j < n`. */
  function LastSome<S, T>(xs: seq<S>, f: S -> Option<T>, n: nat): Option<T>
    requires n <= |xs|
  {
    if n == 0 then None
    else match f(xs[n - 1])
      case Some(v) => Some(v)
      case None => LastSome(xs, f, n - 1)
  }

  /** The last value wins: it comes from the last line that has one. */
  lemma {:induction false} LastSomeLast<S, T>(xs: seq<S>, f: S -> Option<T>, n: nat)
    requires n <= |xs|
    ensures LastSome(xs, f, n).None? <==> forall j | 0 <= j < n :: f(xs[j]).None?
    ensures LastSome(xs, f, n).Some? ==>
      exists j | 0 <= j < n :: LastSome(xs, f, n) == f(xs[j])
                             && forall k | j < k < n :: f(xs[k]).None?
  {
    if n > 0 {
      LastSomeLast(xs, f, n - 1);
      if f(xs[n - 1]).None? && LastSome(xs, f, n - 1).Some? {
        var j :| 0 <= j < n - 1 && LastSome(xs, f, n - 1) == f(xs[j])
                 && forall k | j < k < n - 1 :: f(xs[k]).None?;
        assert forall k | j < k < n :: f(xs[k]).None?;
      }
    }
  }

  /** A line with a value after which no line has one is the answer. */
  lemma {:induction false} LastSomeAt<S, T>(xs: seq<S>, f: S -> Option<T>, n: nat, j: nat)
    requires j < n <= |xs| && f(xs[j]).Some?
    requires forall k | j < k < n :: f(xs[k]).None?
    ensures LastSome(xs, f, n) == f(xs[j])
  {
    if j < n - 1 {
      LastSomeAt(xs, f, n - 1, j);
    }
  }

  /** The last index `j < n` with `p(xs[j])`. */
  function LastIndex<S>(xs: seq<S>, p: S -> bool, n: nat): (r: Option<nat>)
    requires n <= |xs|
    ensures r.Some? ==> r.value < n && p(xs[r.value]) && forall k | r.value < k < n :: !p(xs[k])
    ensures r.None? ==> forall k | 0 <= k < n :: !p(xs[k])
  {
    if n == 0 then None
    else if p(xs[n - 1]) then Some(n - 1)
    else LastIndex(xs, p, n - 1)
  }

  /** The backward search `for i in range(len(xs) - 1, -1, -1): if p(xs[i]): return i`. */
  method FindLast<S>(xs: seq<S>, p: S -> bool) returns (r: Option<nat>)
    ensures r == LastIndex(xs, p, |xs|)
  {
    var i: nat := |xs|;
    while i > 0
      invariant i <= |xs|
      invariant LastIndex(xs, p, |xs|) == LastIndex(xs, p, i)
      decreases i
    {
      if p(xs[i - 1]) {
        return Some(i - 1);
      }
      i := i - 1;
    }
    return None;
  }

  /** `[v for x in xs[:n] if (v := f(x)) is not None]`: the values, in order. */
  function Collect<S, T>(xs: seq<S>, f: S -> Option<T>, n: nat): seq<T>
    requires n <= |xs|
  {
    if n == 0 then []
    else Collect(xs, f, n - 1) + match f(xs[n - 1]) case Some(v) => [v] case None => []
  }

  /** Every collected value is the value of one of the first `n` elements. */
  lemma {:induction false} CollectFrom<S, T>(xs: seq<S>, f: S -> Option<T>, n: nat)
    requires n <= |xs|
    ensures |Collect(xs, f, n)| <= n
    ensures forall x | x in Collect(xs, f, n) :: exists j | 0 <= j < n :: f(xs[j]) == Some(x)
  {
    if n > 0 {
      CollectFrom(xs, f, n - 1);
    }
  }
}
