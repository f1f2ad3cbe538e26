/**
 * Two sequence combinators the scrape is built from: `ConcatMap`, the
 * output of a `for` loop that emits a block per element, and `Select`,
 * the sub-sequence of elements whose key is a given value.
 */
module Seqs {

  /** f(xs[0]) + f(xs[1]) + ... + f(xs[|xs| - 1]). */
  function ConcatMap<A, B>(xs: seq<A>, f: A -> seq<B>): seq<B>
  {
    if xs == [] then [] else ConcatMap(xs[..|xs| - 1], f) + f(xs[|xs| - 1])
  }

  /** One more loop iteration appends one more block. */
  lemma ConcatMapSnoc<A, B>(xs: seq<A>, x: A, f: A -> seq<B>)
    ensures ConcatMap(xs + [x], f) == ConcatMap(xs, f) + f(x)
  {
    assert (xs + [x])[..|xs|] == xs;
  }

  /** Loop step: the blocks of the first i + 1 elements extend those of the first i. */
  lemma ConcatMapStep<A, B>(xs: seq<A>, i: nat, f: A -> seq<B>)
    requires i < |xs|
    ensures ConcatMap(xs[..i + 1], f) == ConcatMap(xs[..i], f) + f(xs[i])
  {
    assert xs[..i + 1] == xs[..i] + [xs[i]];
    ConcatMapSnoc(xs[..i], xs[i], f);
  }

  /** ConcatMap distributes over concatenation. */
  lemma {:induction false} ConcatMapAppend<A, B>(xs: seq<A>, ys: seq<A>, f: A -> seq<B>)
    ensures ConcatMap(xs + ys, f) == ConcatMap(xs, f) + ConcatMap(ys, f)
    decreases |ys|
  {
    if ys == [] {
      assert xs + ys == xs;
    } else {
      var ys' := ys[..|ys| - 1];
      var y := ys[|ys| - 1];
      assert ys == ys' + [y];
      assert xs + ys == (xs + ys') + [y];
      ConcatMapSnoc(xs + ys', y, f);
      ConcatMapAppend(xs, ys', f);
      ConcatMapSnoc(ys', y, f);
    }
  }

  /** When every block has k elements, the output has k elements per input. */
  lemma {:induction false} ConcatMapUniformLength<A, B>(xs: seq<A>, f: A -> seq<B>, k: nat)
    requires forall x :: x in xs ==> |f(x)| == k
    ensures |ConcatMap(xs, f)| == k * |xs|
    decreases |xs|
  {
    if xs != [] {
      var xs', x := xs[..|xs| - 1], xs[|xs| - 1];
      assert x in xs;
      assert forall y :: y in xs' ==> y in xs;
      ConcatMapUniformLength(xs', f, k);
      assert |ConcatMap(xs, f)| == |ConcatMap(xs', f)| + |f(x)|;
      MulSucc(k, |xs'|);
    }
  }

  lemma MulSucc(k: nat, n: nat)
    ensures k * (n + 1) == k * n + k
  {
  }

  /** The output splits around the block of the i-th element. */
  lemma {:induction false} ConcatMapSplit<A, B>(xs: seq<A>, f: A -> seq<B>, i: nat)
    requires i < |xs|
    ensures ConcatMap(xs, f) == ConcatMap(xs[..i], f) + f(xs[i]) + ConcatMap(xs[i + 1..], f)
  {
    var pre, post := xs[..i] + [xs[i]], xs[i + 1..];
    assert xs == pre + post;
    ConcatMapAppend(pre, post, f);
    ConcatMapSnoc(xs[..i], xs[i], f);
  }

  /** Whatever holds of every element of every block holds of every output element. */
  lemma {:induction false} ConcatMapAll<A, B>(xs: seq<A>, f: A -> seq<B>, p: B -> bool)
    requires forall x, y :: x in xs && y in f(x) ==> p(y)
    ensures forall y :: y in ConcatMap(xs, f) ==> p(y)
    decreases |xs|
  {
    if xs != [] {
      var xs' := xs[..|xs| - 1];
      assert forall x :: x in xs' ==> x in xs;
      ConcatMapAll(xs', f, p);
    }
  }

  /** The elements x of s with key(x) == k, in their order in s. */
  function Select<T, K(==)>(s: seq<T>, key: T -> K, k: K): (r: seq<T>)
    ensures |r| <= |s|
    ensures forall x :: x in r ==> x in s && key(x) == k
  {
    if s == [] then [] else (if key(s[0]) == k then [s[0]] else []) + Select(s[1..], key, k)
  }

  lemma {:induction false} SelectAppend<T, K>(a: seq<T>, b: seq<T>, key: T -> K, k: K)
    ensures Select(a + b, key, k) == Select(a, key, k) + Select(b, key, k)
    decreases |a|
  {
    if a == [] {
      assert a + b == b;
    } else {
      assert (a + b)[0] == a[0] && (a + b)[1..] == a[1..] + b;
      SelectAppend(a[1..], b, key, k);
    }
  }

  /** Nothing is selected when no element has the key. */
  lemma {:induction false} SelectNone<T, K>(s: seq<T>, key: T -> K, k: K)
    requires forall x :: x in s ==> key(x) != k
    ensures Select(s, key, k) == []
    decreases |s|
  {
    if s != [] {
      assert forall x :: x in s[1..] ==> x in s;
      SelectNone(s[1..], key, k);
    }
  }

  /** Everything is selected when every element has the key. */
  lemma {:induction false} SelectAll<T, K>(s: seq<T>, key: T -> K, k: K)
    requires forall x :: x in s ==> key(x) == k
    ensures Select(s, key, k) == s
    decreases |s|
  {
    if s != [] {
      assert forall x :: x in s[1..] ==> x in s;
      SelectAll(s[1..], key, k);
      assert s == [s[0]] + s[1..];
    }
  }

  /** With blocks of k elements, the i-th input's block sits at [k * i, k * i + k). */
  lemma ConcatMapBlock<A, B>(xs: seq<A>, f: A -> seq<B>, k: nat, i: nat)
    requires forall x :: x in xs ==> |f(x)| == k
    requires i < |xs|
    ensures |ConcatMap(xs, f)| == k * |xs|
    ensures k * i + k <= |ConcatMap(xs, f)| && ConcatMap(xs, f)[k * i .. k * i + k] == f(xs[i])
  {
    ConcatMapSplit(xs, f, i);
    assert forall x :: x in xs[..i] ==> x in xs;
    assert forall x :: x in xs[i + 1..] ==> x in xs;
    ConcatMapUniformLength(xs[..i], f, k);
    ConcatMapUniformLength(xs[i + 1..], f, k);
    ConcatMapUniformLength(xs, f, k);
  }

  /** Selection distributes over a four-way concatenation. */
  lemma SelectAppend4<T, K>(a: seq<T>, b: seq<T>, c: seq<T>, d: seq<T>, key: T -> K, k: K)
    ensures Select(a + b + c + d, key, k)
         == Select(a, key, k) + Select(b, key, k) + Select(c, key, k) + Select(d, key, k)
  {
    SelectAppend(a + b + c, d, key, k);
    SelectAppend(a + b, c, key, k);
    SelectAppend(a, b, key, k);
  }

  lemma Singletons<T>(w: T, x: T, y: T, z: T)
    ensures [w] + [x] + [y] + [z] == [w, x, y, z]
  {
  }

  /** Appending four pieces one after another appends their concatenation. */
  lemma AppendFour<T>(s: seq<T>, a: seq<T>, b: seq<T>, c: seq<T>, d: seq<T>)
    ensures s + a + b + c + d == s + (a + b + c + d)
  {
  }

  /** Appending five pieces one after another appends their concatenation. */
  lemma AppendFive<T>(s: seq<T>, a: seq<T>, b: seq<T>, c: seq<T>, d: seq<T>, e: seq<T>)
    ensures s + a + b + c + d + e == s + (a + b + c + d + e)
  {
  }

  /** Four pieces of which exactly one is e and the others are empty concatenate to e. */
  lemma OneOfFour<T>(a: seq<T>, b: seq<T>, c: seq<T>, d: seq<T>, e: seq<T>)
    requires || (a == e && b == [] && c == [] && d == [])
             || (a == [] && b == e && c == [] && d == [])
             || (a == [] && b == [] && c == e && d == [])
             || (a == [] && b == [] && c == [] && d == e)
    ensures a + b + c + d == e
  {
  }
}
