/** Result types, and the two list operators every summary of a table uses. */
module Basics {

  datatype Option<+T> = None | Some(value: T)

  /** The kinds of exception the services raise. */
  datatype Error =
    | DomainValidation
    | NotFound
    | RateLimited
    | FlowMismatch
    | Integrity
    | ProviderFault
    | ProvisioningFailed
    | MissingRow

  datatype Result<+T> = Ok(value: T) | Raised(error: Error) {
    predicate IsFailure() {
      Raised?
    }

    function PropagateFailure<U>(): Result<U>
      requires Raised?
    {
      Raised(error)
    }

    function Extract(): T
      requires Ok?
    {
      value
    }

    /** Success or failure alone. */
    function Outcome(): Result<()> {
      match this
      case Ok(_) => Ok(())
      case Raised(e) => Raised(e)
    }

    /** What is left behind: a raised error rolls back to `before`. */
    function Or(before: T): T {
      if Ok? then value else before
    }
  }

  /** The sum of `f` over the rows of a table. */
  function Total<T>(f: T -> int, xs: seq<T>): int {
    if |xs| == 0 then 0 else Total(f, xs[..|xs| - 1]) + f(xs[|xs| - 1])
  }

  lemma {:induction false} TotalConcat<T>(f: T -> int, xs: seq<T>, ys: seq<T>)
    ensures Total(f, xs + ys) == Total(f, xs) + Total(f, ys)
  {
    if |ys| == 0 {
      assert xs + ys == xs;
    } else {
      assert (xs + ys)[..|xs + ys| - 1] == xs + ys[..|ys| - 1];
      TotalConcat(f, xs, ys[..|ys| - 1]);
    }
  }

  lemma TotalOne<T>(f: T -> int, x: T)
    ensures Total(f, [x]) == f(x)
  {
    assert [x][..0] == [];
  }

  lemma {:induction false} TotalUpdate<T>(f: T -> int, xs: seq<T>, i: nat, y: T)
    requires i < |xs|
    ensures Total(f, xs[i := y]) == Total(f, xs) - f(xs[i]) + f(y)
  {
    var n := |xs| - 1;
    if i == n {
      assert xs[i := y][..n] == xs[..n];
    } else {
      assert xs[i := y][..n] == xs[..n][i := y];
      TotalUpdate(f, xs[..n], i, y);
    }
  }

  /** Pointwise order carries over to totals. */
  lemma {:induction false} TotalMonotone<T>(f: T -> int, xs: seq<T>, g: T -> int, ys: seq<T>)
    requires |xs| == |ys|
    requires forall i :: 0 <= i < |xs| ==> f(xs[i]) <= g(ys[i])
    ensures Total(f, xs) <= Total(g, ys)
  {
    if |xs| > 0 {
      var n := |xs| - 1;
      assert f(xs[n]) <= g(ys[n]);
      forall i | 0 <= i < n
        ensures f(xs[..n][i]) <= g(ys[..n][i])
      {
        assert f(xs[i]) <= g(ys[i]);
      }
      TotalMonotone(f, xs[..n], g, ys[..n]);
    }
  }

  lemma {:induction false} TotalSame<T>(f: T -> int, g: T -> int, xs: seq<T>)
    requires forall i :: 0 <= i < |xs| ==> f(xs[i]) == g(xs[i])
    ensures Total(f, xs) == Total(g, xs)
  {
    TotalMonotone(f, xs, g, xs);
    TotalMonotone(g, xs, f, xs);
  }

  lemma {:induction false} TotalAtLeast<T>(f: T -> int, xs: seq<T>, i: nat)
    requires i < |xs|
    requires forall k :: 0 <= k < |xs| ==> 0 <= f(xs[k])
    ensures f(xs[i]) <= Total(f, xs)
  {
    var n := |xs| - 1;
    if i == n {
      TotalNonNegative(f, xs[..n]);
    } else {
      assert xs[..n][i] == xs[i];
      assert 0 <= f(xs[n]);
      TotalAtLeast(f, xs[..n], i);
    }
  }

  lemma {:induction false} TotalNonNegative<T>(f: T -> int, xs: seq<T>)
    requires forall k :: 0 <= k < |xs| ==> 0 <= f(xs[k])
    ensures 0 <= Total(f, xs)
  {
    if |xs| > 0 {
      assert 0 <= f(xs[|xs| - 1]);
      TotalNonNegative(f, xs[..|xs| - 1]);
    }
  }

  /** A total over the whole is the sum of the totals of its two parts. */
  lemma {:induction false} TotalSum<T>(f: T -> int, g: T -> int, h: T -> int, xs: seq<T>)
    requires forall i :: 0 <= i < |xs| ==> f(xs[i]) == g(xs[i]) + h(xs[i])
    ensures Total(f, xs) == Total(g, xs) + Total(h, xs)
  {
    if |xs| > 0 {
      assert f(xs[|xs| - 1]) == g(xs[|xs| - 1]) + h(xs[|xs| - 1]);
      TotalSum(f, g, h, xs[..|xs| - 1]);
    }
  }

  /** The rows of a table that satisfy `p`, in order. */
  function Filter<T>(p: T -> bool, xs: seq<T>): seq<T> {
    if |xs| == 0 then []
    else Filter(p, xs[..|xs| - 1]) + (if p(xs[|xs| - 1]) then [xs[|xs| - 1]] else [])
  }

  lemma {:induction false} FilterConcat<T>(p: T -> bool, xs: seq<T>, ys: seq<T>)
    ensures Filter(p, xs + ys) == Filter(p, xs) + Filter(p, ys)
  {
    if |ys| == 0 {
      assert xs + ys == xs;
    } else {
      assert (xs + ys)[..|xs + ys| - 1] == xs + ys[..|ys| - 1];
      FilterConcat(p, xs, ys[..|ys| - 1]);
    }
  }

  /** Rows that count for nothing may be left out of a total. */
  lemma {:induction false} TotalFilter<T>(f: T -> int, p: T -> bool, xs: seq<T>)
    requires forall k :: 0 <= k < |xs| && !p(xs[k]) ==> f(xs[k]) == 0
    ensures Total(f, xs) == Total(f, Filter(p, xs))
  {
    if |xs| > 0 {
      var n := |xs| - 1;
      TotalFilter(f, p, xs[..n]);
      if p(xs[n]) {
        TotalConcat(f, Filter(p, xs[..n]), [xs[n]]);
        TotalOne(f, xs[n]);
      } else {
        assert f(xs[n]) == 0;
        assert Filter(p, xs) == Filter(p, xs[..n]);
      }
    }
  }

  lemma {:induction false} FilterNone<T>(p: T -> bool, xs: seq<T>)
    requires forall k :: 0 <= k < |xs| ==> !p(xs[k])
    ensures Filter(p, xs) == []
  {
    if |xs| > 0 {
      assert !p(xs[|xs| - 1]);
      FilterNone(p, xs[..|xs| - 1]);
    }
  }

  lemma {:induction false} FilterAll<T>(p: T -> bool, xs: seq<T>)
    requires forall k :: 0 <= k < |xs| ==> p(xs[k])
    ensures Filter(p, xs) == xs
  {
    if |xs| > 0 {
      assert p(xs[|xs| - 1]);
      FilterAll(p, xs[..|xs| - 1]);
      assert xs == xs[..|xs| - 1] + [xs[|xs| - 1]];
    }
  }
}
