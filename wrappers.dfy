/** Failure-compatible Option and Result types, and the all-or-nothing
    element-wise conversion that Rust's `?` inside a loop (or serde's
    conversion of a whole `Vec`) amounts to. */
module Wrappers {

  datatype Option<+T> = None | Some(value: T)

  datatype Result<+R, +E> = Success(value: R) | Failure(error: E) {
    predicate IsFailure() {
      Failure?
    }

    function PropagateFailure<U>(): Result<U, E>
      requires Failure?
    {
      Failure(error)
    }

    function Extract(): R
      requires Success?
    {
      value
    }
  }

  function MapOption<T, U>(o: Option<T>, f: T -> U): (r: Option<U>)
    ensures r.None? <==> o.None?
    ensures o.Some? ==> r.value == f(o.value)
  {
    match o
    case None => None
    case Some(v) => Some(f(v))
  }

  /** Index of the first element that `f` rejects, if any. */
  ghost predicate FirstFailureAt<A, B, E>(s: seq<A>, f: A -> Result<B, E>, j: int)
  {
    && 0 <= j < |s|
    && f(s[j]).Failure?
    && forall i :: 0 <= i < j ==> f(s[i]).Success?
  }

  /** Converts every element of `s` with `f`, in order. The conversion either
      succeeds on every element, or the whole result is the error of the
      first element that fails: no partial sequence is ever produced. */
  function TryMap<A, B, E>(s: seq<A>, f: A -> Result<B, E>): (r: Result<seq<B>, E>)
    ensures r.Success? <==> forall i :: 0 <= i < |s| ==> f(s[i]).Success?
    ensures r.Success? ==> |r.value| == |s|
    ensures r.Success? ==> forall i :: 0 <= i < |s| ==> f(s[i]) == Success(r.value[i])
    ensures r.Failure? ==> exists j :: FirstFailureAt(s, f, j) && f(s[j]).error == r.error
    decreases |s|
  {
    if s == [] then Success([])
    else
      var init := TryMap(s[..|s| - 1], f);
      if init.Failure? then
        ghost var j :| FirstFailureAt(s[..|s| - 1], f, j) && f(s[..|s| - 1][j]).error == init.error;
        assert FirstFailureAt(s, f, j);
        Failure(init.error)
      else
        var last := f(s[|s| - 1]);
        if last.Failure? then
          assert FirstFailureAt(s, f, |s| - 1);
          Failure(last.error)
        else
          Success(init.value + [last.value])
  }

  /** Converting a concatenation is converting each part in turn: the first
      part's failure wins, and on success the results concatenate. */
  lemma {:induction false} TryMapAppend<A, B, E>(a: seq<A>, b: seq<A>, f: A -> Result<B, E>)
    ensures TryMap(a + b, f) ==
      (var x :- TryMap(a, f);
       var y :- TryMap(b, f);
       Success(x + y))
    decreases |b|
  {
    if b == [] {
      assert a + b == a;
      assert TryMap(b, f) == Success([]);
      if TryMap(a, f).Success? {
        assert TryMap(a, f).value + [] == TryMap(a, f).value;
      }
    } else {
      var b' := b[..|b| - 1];
      assert (a + b)[..|a + b| - 1] == a + b';
      assert (a + b)[|a + b| - 1] == b[|b| - 1];
      TryMapAppend(a, b', f);
      if TryMap(a, f).Success? && TryMap(b', f).Success? && f(b[|b| - 1]).Success? {
        assert TryMap(a, f).value + TryMap(b', f).value + [f(b[|b| - 1]).value]
            == TryMap(a, f).value + (TryMap(b', f).value + [f(b[|b| - 1]).value]);
      }
    }
  }
}
