/** Appending to a list unless the element is already there: the `contains`-then-`push`
    step every circuit parser and `QuantumCircuit::add_qubit`/`add_clbit` perform. */
module Dedup {

  predicate NoDuplicates<T(==)>(xs: seq<T>) {
    forall i, j :: 0 <= i < j < |xs| ==> xs[i] != xs[j]
  }

  /** `if !xs.contains(&x) { xs.push(x) }`. */
  function Insert<T(==)>(xs: seq<T>, x: T): (r: seq<T>)
    ensures r == xs || r == xs + [x]
    ensures x in r
    ensures x in xs ==> r == xs
  {
    if x in xs then xs else xs + [x]
  }

  /** One `Insert` per element of `ys`, in order. */
  function InsertAll<T(==)>(xs: seq<T>, ys: seq<T>): seq<T>
    decreases |ys|
  {
    if |ys| == 0 then xs else InsertAll(Insert(xs, ys[0]), ys[1..])
  }

  /** `Insert` keeps a duplicate-free list duplicate-free. */
  lemma InsertKeepsNoDuplicates<T>(xs: seq<T>, x: T)
    requires NoDuplicates(xs)
    ensures NoDuplicates(Insert(xs, x))
  {
  }

  /** Inserting the same element twice changes nothing the second time. */
  lemma InsertIdempotent<T>(xs: seq<T>, x: T)
    ensures Insert(Insert(xs, x), x) == Insert(xs, x)
  {
  }

  /** `InsertAll` keeps every earlier entry in its position, contains exactly the old entries
      and the inserted ones, and adds no duplicate. */
  lemma {:induction false} InsertAllSpec<T>(xs: seq<T>, ys: seq<T>)
    ensures |xs| <= |InsertAll(xs, ys)| && InsertAll(xs, ys)[..|xs|] == xs
    ensures forall y :: y in InsertAll(xs, ys) <==> y in xs || y in ys
    ensures NoDuplicates(xs) ==> NoDuplicates(InsertAll(xs, ys))
    ensures (forall y :: y in ys ==> y in xs) ==> InsertAll(xs, ys) == xs
    decreases |ys|
  {
    if |ys| > 0 {
      var xs' := Insert(xs, ys[0]);
      InsertAllSpec(xs', ys[1..]);
      assert xs'[..|xs|] == xs;
      assert InsertAll(xs, ys)[..|xs|] == InsertAll(xs', ys[1..])[..|xs'|][..|xs|];
      assert forall y :: y in ys <==> y == ys[0] || y in ys[1..];
    }
  }

  /** `InsertAll` adds at most one entry per inserted element. */
  lemma {:induction false} InsertAllGrowth<T>(xs: seq<T>, ys: seq<T>)
    ensures |InsertAll(xs, ys)| <= |xs| + |ys|
    decreases |ys|
  {
    if |ys| > 0 {
      InsertAllGrowth(Insert(xs, ys[0]), ys[1..]);
    }
  }

  /** One turn of `InsertAll`. */
  lemma InsertAllStep<T>(xs: seq<T>, ys: seq<T>)
    requires |ys| > 0
    ensures InsertAll(xs, ys) == InsertAll(Insert(xs, ys[0]), ys[1..])
  {
  }

  /** Inserting a list a second time changes nothing. */
  lemma InsertAllIdempotent<T>(xs: seq<T>, ys: seq<T>)
    ensures InsertAll(InsertAll(xs, ys), ys) == InsertAll(xs, ys)
  {
    InsertAllSpec(xs, ys);
    InsertAllSpec(InsertAll(xs, ys), ys);
  }

  /** `for (a, b) in firsts.iter().zip(seconds.iter())`: each pair inserted into its own list, up to
      the shorter of the two. */
  function InsertPairs<A(==), B(==)>(xs: seq<A>, ys: seq<B>, firsts: seq<A>, seconds: seq<B>): (r: (seq<A>, seq<B>))
    decreases |firsts|
  {
    if |firsts| == 0 || |seconds| == 0 then (xs, ys)
    else InsertPairs(Insert(xs, firsts[0]), Insert(ys, seconds[0]), firsts[1..], seconds[1..])
  }

  /** One turn of the pairwise insertion. */
  lemma InsertPairsStep<A, B>(xs: seq<A>, ys: seq<B>, firsts: seq<A>, seconds: seq<B>)
    requires |firsts| > 0 && |seconds| > 0
    ensures InsertPairs(xs, ys, firsts, seconds) ==
            InsertPairs(Insert(xs, firsts[0]), Insert(ys, seconds[0]), firsts[1..], seconds[1..])
  {
  }

  /** The pairwise insertion is `InsertAll` on the two lists cut to the shorter length, so
      with no second elements no first element is recorded. */
  lemma {:induction false} InsertPairsIsInsertAll<A, B>(xs: seq<A>, ys: seq<B>, firsts: seq<A>, seconds: seq<B>)
    ensures var n := if |firsts| < |seconds| then |firsts| else |seconds|;
            InsertPairs(xs, ys, firsts, seconds) == (InsertAll(xs, firsts[..n]), InsertAll(ys, seconds[..n]))
    decreases |firsts|
  {
    if |firsts| > 0 && |seconds| > 0 {
      InsertPairsIsInsertAll(Insert(xs, firsts[0]), Insert(ys, seconds[0]), firsts[1..], seconds[1..]);
      var n := if |firsts| < |seconds| then |firsts| else |seconds|;
      assert firsts[..n][1..] == firsts[1..][..n - 1];
      assert seconds[..n][1..] == seconds[1..][..n - 1];
    }
  }
}
