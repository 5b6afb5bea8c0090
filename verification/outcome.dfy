/** Failure-compatible result types shared by the whole model.

    Rust's `panic!`, a failed `unwrap`/`expect` and an out-of-bounds index all abort the
    program; the model turns each of them into a `Panic` value that the caller propagates
    with `:-`, carrying the message the source prints.
 */
module Outcomes {

  datatype Option<+T> = None | Some(value: T)

  datatype Outcome<+T> = Ok(value: T) | Panic(msg: string) {

    predicate IsFailure() {
      Panic?
    }

    function PropagateFailure<U>(): Outcome<U>
      requires Panic?
    {
      Panic(msg)
    }

    function Extract(): T
      requires Ok?
    {
      value
    }
  }

  /** Rust's `Option::unwrap`. */
  function Unwrap<T>(o: Option<T>): (r: Outcome<T>)
    ensures r.Ok? <==> o.Some?
    ensures r.Ok? ==> Some(r.value) == o
    ensures r.Panic? ==> r.msg == UNWRAP_NONE
  {
    match o
    case Some(v) => Ok(v)
    case None => Panic(UNWRAP_NONE)
  }

  const UNWRAP_NONE := "called `Option::unwrap()` on a `None` value"

  /** The message of an index past the end of a `Vec`. */
  const INDEX_OUT_OF_BOUNDS := "index out of bounds"

  /** The message of `unwrap` on a failed `str::parse` into an integer. */
  const PARSE_INT_PANIC := "called `Result::unwrap()` on an `Err` value: ParseIntError"

  /** A loop that pushes `f(x)` for every `x` in order and aborts at the first panic:
      either every element succeeds and the values line up with the inputs, or the result
      is the panic of the first element that fails. */
  function Collect<A, B>(xs: seq<A>, f: A -> Outcome<B>): (r: Outcome<seq<B>>)
    ensures r.Ok? <==> forall k :: 0 <= k < |xs| ==> f(xs[k]).Ok?
    ensures r.Ok? ==> |r.value| == |xs| && forall k :: 0 <= k < |xs| ==> f(xs[k]) == Ok(r.value[k])
    ensures r.Panic? ==> exists k :: 0 <= k < |xs| && f(xs[k]) == Panic(r.msg) && forall j :: 0 <= j < k ==> f(xs[j]).Ok?
  {
    if |xs| == 0 then Ok([])
    else
      var x :- f(xs[0]);
      var rest := Collect(xs[1..], f);
      assert forall k :: 1 <= k < |xs| ==> xs[k] == xs[1..][k - 1];
      if rest.Panic? then
        var k :| 0 <= k < |xs| - 1 && f(xs[1..][k]) == Panic(rest.msg) && forall j :: 0 <= j < k ==> f(xs[1..][j]).Ok?;
        assert f(xs[k + 1]) == Panic(rest.msg);
        Panic(rest.msg)
      else
        Ok([x] + rest.value)
  }

  /** The result of `Collect` when every element succeeds. */
  lemma CollectAll<A, B>(xs: seq<A>, f: A -> Outcome<B>, values: seq<B>)
    requires |values| == |xs|
    requires forall k :: 0 <= k < |xs| ==> f(xs[k]) == Ok(values[k])
    ensures Collect(xs, f) == Ok(values)
  {
    var r := Collect(xs, f);
    assert r.Ok?;
    assert r.value == values;
  }

  /** The result of `Collect` when element `k` is the first that fails. */
  lemma CollectFails<A, B>(xs: seq<A>, f: A -> Outcome<B>, k: nat)
    requires k < |xs| && f(xs[k]).Panic?
    requires forall j :: 0 <= j < k ==> f(xs[j]).Ok?
    ensures Collect(xs, f) == Panic(f(xs[k]).msg)
  {
    var r := Collect(xs, f);
    assert r.Panic?;
    var i :| 0 <= i < |xs| && f(xs[i]) == Panic(r.msg) && forall j :: 0 <= j < i ==> f(xs[j]).Ok?;
    assert i == k;
  }

  /** The loop `Collect` describes: push `f(x)` for each `x`, returning at the first
      panic. */
  method CollectEach<A, B>(xs: seq<A>, f: A -> Outcome<B>) returns (r: Outcome<seq<B>>)
    ensures r == Collect(xs, f)
  {
    var values: seq<B> := [];
    for k := 0 to |xs|
      invariant |values| == k
      invariant forall j :: 0 <= j < k ==> f(xs[j]) == Ok(values[j])
    {
      var v := f(xs[k]);
      if v.Panic? {
        CollectFails(xs, f, k);
        return Panic(v.msg);
      }
      values := values + [v.value];
    }
    CollectAll(xs, f, values);
    return Ok(values);
  }
}
