/** Two list shapes the exporter builds with loops and comprehensions: keeping
    the elements that pass a test (`[x for x in s if p(x)]`), and concatenating
    per-element results where any single failure aborts the whole pass. */
module Sequences {
  import opened Wrappers

  /** `[x for x in s if p(x)]`: order and duplicates are kept. */
  function Filter<T>(p: T -> bool, s: seq<T>): (r: seq<T>)
    ensures |r| <= |s|
    ensures forall i :: 0 <= i < |r| ==> p(r[i])
  {
    if s == [] then []
    else (if p(s[0]) then [s[0]] else []) + Filter(p, s[1..])
  }

  /** Filtering distributes over concatenation: the relative order of the
      kept elements is the order of the input. */
  lemma {:induction false} FilterAppend<T>(p: T -> bool, a: seq<T>, b: seq<T>)
    ensures Filter(p, a + b) == Filter(p, a) + Filter(p, b)
    decreases |a|
  {
    if a != [] {
      assert (a + b)[0] == a[0];
      assert (a + b)[1..] == a[1..] + b;
      FilterAppend(p, a[1..], b);
    } else {
      assert a + b == b;
    }
  }

  /** Filtering changes nothing exactly when every element already passes. */
  lemma {:induction false} FilterKeepsAll<T>(p: T -> bool, s: seq<T>)
    ensures (forall i :: 0 <= i < |s| ==> p(s[i])) <==> Filter(p, s) == s
    decreases |s|
  {
    if s != [] && forall i :: 0 <= i < |s| ==> p(s[i]) {
      assert forall i :: 0 <= i < |s[1..]| ==> p(s[1..][i]) by {
        forall i | 0 <= i < |s[1..]| ensures p(s[1..][i]) {
          assert s[1..][i] == s[i + 1];
        }
      }
      FilterKeepsAll(p, s[1..]);
      assert s == [s[0]] + s[1..];
    }
  }

  /** A second filter with the same test is a no-op. */
  lemma FilterIdempotent<T>(p: T -> bool, s: seq<T>)
    ensures Filter(p, Filter(p, s)) == Filter(p, s)
  {
    FilterKeepsAll(p, Filter(p, s));
  }

  /** Each value occurs in the result as often as in the input when it passes
      the test, and not at all otherwise: duplicates are kept, nothing is added. */
  lemma {:induction false} FilterCount<T>(p: T -> bool, s: seq<T>, x: T)
    ensures multiset(Filter(p, s))[x] == if p(x) then multiset(s)[x] else 0
    decreases |s|
  {
    if s != [] {
      FilterCount(p, s[1..], x);
      assert s == [s[0]] + s[1..];
    }
  }

  /** Runs `f` on every element in order and concatenates the results; the
      first failure makes the whole pass fail, as an uncaught exception inside
      a loop that appends to a list does. */
  function ConcatAll<A, B>(f: A -> Option<seq<B>>, xs: seq<A>): Option<seq<B>>
    decreases |xs|
  {
    if xs == [] then Some([])
    else
      var init :- ConcatAll(f, xs[..|xs| - 1]);
      var last :- f(xs[|xs| - 1]);
      Some(init + last)
  }

  /** The pass succeeds exactly when every element succeeds. */
  lemma {:induction false} ConcatAllSomeIff<A, B>(f: A -> Option<seq<B>>, xs: seq<A>)
    ensures ConcatAll(f, xs).Some? <==> forall i :: 0 <= i < |xs| ==> f(xs[i]).Some?
    decreases |xs|
  {
    if xs != [] {
      var init := xs[..|xs| - 1];
      ConcatAllSomeIff(f, init);
      assert forall i :: 0 <= i < |init| ==> init[i] == xs[i];
    }
  }

  /** Concatenation of inputs gives concatenation of outputs. */
  lemma {:induction false} ConcatAllAppend<A, B>(f: A -> Option<seq<B>>, xs: seq<A>, ys: seq<A>)
    ensures ConcatAll(f, xs + ys).Some? <==> ConcatAll(f, xs).Some? && ConcatAll(f, ys).Some?
    ensures ConcatAll(f, xs + ys).Some? ==>
              ConcatAll(f, xs + ys).value == ConcatAll(f, xs).value + ConcatAll(f, ys).value
    decreases |ys|
  {
    if ys == [] {
      assert xs + ys == xs;
    } else {
      var yInit := ys[..|ys| - 1];
      assert (xs + ys)[..|xs + ys| - 1] == xs + yInit;
      assert (xs + ys)[|xs + ys| - 1] == ys[|ys| - 1];
      ConcatAllAppend(f, xs, yInit);
    }
  }

  /** When every element yields exactly `n` items, the pass yields `|xs| * n` items. */
  lemma {:induction false} ConcatAllUniformLength<A, B>(f: A -> Option<seq<B>>, xs: seq<A>, n: nat)
    requires forall k :: 0 <= k < |xs| ==> f(xs[k]).Some? && |f(xs[k]).value| == n
    ensures ConcatAll(f, xs).Some?
    ensures |ConcatAll(f, xs).value| == |xs| * n
    decreases |xs|
  {
    if xs != [] {
      var m := |xs| - 1;
      var init := xs[..m];
      assert forall k :: 0 <= k < |init| ==> init[k] == xs[k];
      ConcatAllUniformLength(f, init, n);
      MulSucc(m, n);
    }
  }

  /** When every element yields exactly `n` items, item `j` of element `i`
      sits at offset `i * n + j` of the pass. */
  lemma {:induction false} ConcatAllUniformAt<A, B>(f: A -> Option<seq<B>>, xs: seq<A>, n: nat, i: nat, j: nat)
    requires forall k :: 0 <= k < |xs| ==> f(xs[k]).Some? && |f(xs[k]).value| == n
    requires i < |xs| && j < n
    ensures ConcatAll(f, xs).Some? && i * n + j < |ConcatAll(f, xs).value|
    ensures ConcatAll(f, xs).value[i * n + j] == f(xs[i]).value[j]
    decreases |xs|
  {
    var m := |xs| - 1;
    var init := xs[..m];
    assert forall k :: 0 <= k < |init| ==> init[k] == xs[k];
    ConcatAllUniformLength(f, init, n);
    ConcatAllUniformLength(f, xs, n);
    var r0 := ConcatAll(f, init).value;
    var last := f(xs[m]).value;
    assert ConcatAll(f, xs).value == r0 + last;
    if i < m {
      ConcatAllUniformAt(f, init, n, i, j);
      MulStep(i, m, n, j);
    } else {
      assert i * n + j == |r0| + j;
    }
  }

  /** `(m + 1) * n` is `m * n + n`. */
  lemma MulSucc(m: nat, n: nat)
    ensures (m + 1) * n == m * n + n
  {
  }

  /** `i < m` and `j < n` put offset `i * n + j` before `m * n`. */
  lemma MulStep(i: nat, m: nat, n: nat, j: nat)
    requires i < m && j < n
    ensures i * n + j < m * n
  {
    assert (i + 1) * n <= m * n by {
      assert m * n == (i + 1) * n + (m - i - 1) * n;
    }
  }

  /** The concatenation of `f(x)` over the elements `x` of `xs`, in order. */
  function ConcatMap<A, B>(f: A -> seq<B>, xs: seq<A>): seq<B>
    decreases |xs|
  {
    if xs == [] then [] else ConcatMap(f, xs[..|xs| - 1]) + f(xs[|xs| - 1])
  }

  /** Concatenation of inputs gives concatenation of outputs. */
  lemma {:induction false} ConcatMapAppend<A, B>(f: A -> seq<B>, xs: seq<A>, ys: seq<A>)
    ensures ConcatMap(f, xs + ys) == ConcatMap(f, xs) + ConcatMap(f, ys)
    decreases |ys|
  {
    if ys == [] {
      assert xs + ys == xs;
    } else {
      var yInit := ys[..|ys| - 1];
      assert (xs + ys)[..|xs + ys| - 1] == xs + yInit;
      assert (xs + ys)[|xs + ys| - 1] == ys[|ys| - 1];
      ConcatMapAppend(f, xs, yInit);
    }
  }

  /** Every item of the concatenation comes from some element. */
  lemma {:induction false} ConcatMapItemHasSource<A, B>(f: A -> seq<B>, xs: seq<A>, u: B)
    requires u in ConcatMap(f, xs)
    ensures exists k :: 0 <= k < |xs| && u in f(xs[k])
    decreases |xs|
  {
    var m := |xs| - 1;
    var init := xs[..m];
    assert ConcatMap(f, xs) == ConcatMap(f, init) + f(xs[m]);
    if u in ConcatMap(f, init) {
      ConcatMapItemHasSource(f, init, u);
      var k :| 0 <= k < |init| && u in f(init[k]);
      assert init[k] == xs[k];
    }
  }

  /** Every item of every element's result is in the concatenation. */
  lemma {:induction false} ConcatMapHasItem<A, B>(f: A -> seq<B>, xs: seq<A>, k: nat, u: B)
    requires k < |xs| && u in f(xs[k])
    ensures u in ConcatMap(f, xs)
    decreases |xs|
  {
    var m := |xs| - 1;
    var init := xs[..m];
    assert ConcatMap(f, xs) == ConcatMap(f, init) + f(xs[m]);
    if k < m {
      assert init[k] == xs[k];
      ConcatMapHasItem(f, init, k, u);
    }
  }
}
