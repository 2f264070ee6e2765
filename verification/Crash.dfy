/** Durable effects and process death. A process that runs alone performs a sequence of effects
    on its disk; when it dies, a prefix of them is what happened. */
module Crash {
  import opened Wrappers

  function Run<D, E>(apply: (D, E) -> D, d: D, es: seq<E>): D
    decreases |es|
  {
    if es == [] then d else Run(apply, apply(d, es[0]), es[1..])
  }

  /** What is on disk when the process dies after n durable effects. */
  function Live<D, E>(apply: (D, E) -> D, d: D, es: seq<E>, n: nat): D {
    Run(apply, d, es[..Min(n, |es|)])
  }

  lemma {:induction false} RunAppend<D, E>(apply: (D, E) -> D, d: D, a: seq<E>, b: seq<E>)
    ensures Run(apply, d, a + b) == Run(apply, Run(apply, d, a), b)
    decreases |a|
  {
    if a == [] {
      assert a + b == b;
    } else {
      assert (a + b)[1..] == a[1..] + b;
      RunAppend(apply, apply(d, a[0]), a[1..], b);
    }
  }

  lemma {:induction false} LiveAppend<D, E>(apply: (D, E) -> D, d: D, a: seq<E>, b: seq<E>, n: nat)
    ensures Live(apply, d, a + b, n) == Live(apply, Live(apply, d, a, n), b, Monus(n, |a|))
  {
    if n <= |a| {
      assert (a + b)[..Min(n, |a + b|)] == a[..n];
      assert b[..0] == [];
    } else {
      var k := Min(n - |a|, |b|);
      assert (a + b)[..Min(n, |a + b|)] == a + b[..k];
      assert a[..|a|] == a;
      RunAppend(apply, d, a, b[..k]);
    }
  }

  lemma LiveStep<D, E>(apply: (D, E) -> D, d: D, es: seq<E>, n: nat)
    requires es != []
    ensures Live(apply, d, es, n) == if n == 0 then d else Live(apply, apply(d, es[0]), es[1..], n - 1)
    ensures |es| == 1 ==> Live(apply, d, es, n) == if n == 0 then d else apply(d, es[0])
  {
    if n > 0 {
      var k := Min(n, |es|);
      assert es[..k][1..] == es[1..][..k - 1];
    }
    if |es| == 1 {
      assert es[1..] == [];
    }
  }

  lemma DeadStays<D, E>(apply: (D, E) -> D, d: D, es: seq<E>)
    ensures Live(apply, d, es, 0) == d
  {
    assert es[..0] == [];
  }

  lemma LiveAll<D, E>(apply: (D, E) -> D, d: D, es: seq<E>, n: nat)
    ensures n >= |es| ==> Live(apply, d, es, n) == Run(apply, d, es)
    ensures es == [] ==> Live(apply, d, es, n) == d
  {
    assert es[..|es|] == es;
  }

  /** Either a process outlives its first part and goes on from all of it, or dies inside it. */
  lemma LiveThen<D, E>(apply: (D, E) -> D, d: D, a: seq<E>, b: seq<E>, n: nat)
    ensures n > |a| ==> Live(apply, d, a + b, n) == Live(apply, Run(apply, d, a), b, n - |a|) && Live(apply, d, a, n) == Run(apply, d, a)
    ensures n <= |a| ==> Live(apply, d, a + b, n) == Live(apply, d, a, n)
  {
    LiveAppend(apply, d, a, b, n);
    LiveAll(apply, d, a, n);
    DeadStays(apply, Live(apply, d, a, n), b);
  }

  lemma Run1<D, E>(apply: (D, E) -> D, d: D, e: E)
    ensures Run(apply, d, [e]) == apply(d, e)
  {
    assert [e][1..] == [];
    assert Run(apply, apply(d, e), []) == apply(d, e);
  }

  lemma Run3<D, E>(apply: (D, E) -> D, d: D, a: E, b: E, c: E)
    ensures Run(apply, d, [a, b, c]) == apply(apply(apply(d, a), b), c)
  {
    assert [a, b, c][1..] == [b, c];
    assert [b, c][1..] == [c];
    Run1(apply, apply(apply(d, a), b), c);
  }
}
