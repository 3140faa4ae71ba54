/** Concatenating per-element results over a sequence, and the facts the orchestrator's
    reasoning about its report needs. */
module Sequences {

  /** `f(xs[0]) + f(xs[1]) + ... + f(xs[|xs| - 1])`. */
  function FlatMap<T, U>(f: T -> seq<U>, xs: seq<T>): seq<U>
  {
    if xs == [] then [] else FlatMap(f, xs[..|xs| - 1]) + f(xs[|xs| - 1])
  }

  /** FlatMap distributes over concatenation. */
  lemma {:induction false} FlatMapConcat<T, U>(f: T -> seq<U>, a: seq<T>, b: seq<T>)
    ensures FlatMap(f, a + b) == FlatMap(f, a) + FlatMap(f, b)
    decreases |b|
  {
    if b == [] {
      assert a + b == a;
    } else {
      var init := b[..|b| - 1];
      assert (a + b)[..|a + b| - 1] == a + init;
      FlatMapConcat(f, a, init);
    }
  }

  /** The results for element `i` come after those of every earlier element and before those
      of every later one. */
  lemma {:induction false} FlatMapSplit<T, U>(f: T -> seq<U>, xs: seq<T>, i: nat)
    requires i < |xs|
    ensures FlatMap(f, xs) == FlatMap(f, xs[..i]) + f(xs[i]) + FlatMap(f, xs[i + 1..])
    decreases |xs|
  {
    var init := xs[..|xs| - 1];
    if i == |xs| - 1 {
      assert init == xs[..i];
      assert xs[i + 1..] == [];
    } else {
      FlatMapSplit(f, init, i);
      assert init[..i] == xs[..i] && init[i] == xs[i];
      var rest := xs[i + 1..];
      assert rest[..|rest| - 1] == init[i + 1..];
      assert rest[|rest| - 1] == xs[|xs| - 1];
    }
  }

  /** Everything an element contributes appears in the whole. */
  lemma InFlatMapFrom<T, U>(f: T -> seq<U>, xs: seq<T>, j: nat, u: U)
    requires j < |xs| && u in f(xs[j])
    ensures u in FlatMap(f, xs)
  {
    FlatMapSplit(f, xs, j);
  }

  /** Everything in the whole was contributed by some element. */
  lemma {:induction false} InFlatMapSome<T, U>(f: T -> seq<U>, xs: seq<T>, u: U) returns (j: nat)
    requires u in FlatMap(f, xs)
    ensures j < |xs| && u in f(xs[j])
    decreases |xs|
  {
    var init := xs[..|xs| - 1];
    if u in FlatMap(f, init) {
      j := InFlatMapSome(f, init, u);
      assert init[j] == xs[j];
    } else {
      j := |xs| - 1;
    }
  }
}
