/**
  Accumulator loops: the evaluators run `total += term(x)` and print a few lines per
  item, over the items of a dict in iteration order. `Suma(f, xs)` is that total,
  `Concatenar(f, xs)` the lines, and the lemmas below say what they do not depend on.
 */
module Acumulados {
  import opened Wrappers

  /** `f(xs[0]) + ... + f(xs[|xs| - 1])`, accumulated from the left. */
  function Suma<T>(f: T -> real, xs: seq<T>): real {
    if xs == [] then 0.0 else Suma(f, xs[..|xs| - 1]) + f(xs[|xs| - 1])
  }

  /** One more step of the accumulation loop. */
  lemma SumaPaso<T>(f: T -> real, xs: seq<T>, i: nat)
    requires i < |xs|
    ensures Suma(f, xs[..i + 1]) == Suma(f, xs[..i]) + f(xs[i])
  {
    assert xs[..i + 1][..i] == xs[..i];
  }

  lemma {:induction false} SumaConcat<T>(f: T -> real, a: seq<T>, b: seq<T>)
    ensures Suma(f, a + b) == Suma(f, a) + Suma(f, b)
  {
    if b == [] {
      assert a + b == a;
    } else {
      assert (a + b)[..|a + b| - 1] == a + b[..|b| - 1];
      SumaConcat(f, a, b[..|b| - 1]);
    }
  }

  /** An item inserted anywhere adds its own term. */
  lemma SumaInsertar<T>(f: T -> real, xs: seq<T>, k: nat, x: T)
    requires k <= |xs|
    ensures Suma(f, xs[..k] + [x] + xs[k..]) == Suma(f, xs) + f(x)
  {
    SumaConcat(f, xs[..k] + [x], xs[k..]);
    SumaConcat(f, xs[..k], [x]);
    SumaConcat(f, xs[..k], xs[k..]);
    assert [x][..0] == [];
    assert xs[..k] + xs[k..] == xs;
  }

  /** Where the last item of `a` sits in a permutation `b` of it, and what is left of
      both once it is taken out. */
  lemma Localizar<T>(a: seq<T>, b: seq<T>) returns (k: nat)
    requires a != [] && multiset(a) == multiset(b)
    ensures k < |b| && b[k] == a[|a| - 1]
    ensures multiset(a[..|a| - 1]) == multiset(b[..k] + b[k + 1..])
    ensures b == (b[..k] + b[k + 1..])[..k] + [b[k]] + (b[..k] + b[k + 1..])[k..]
  {
    var x := a[|a| - 1];
    assert a == a[..|a| - 1] + [x];
    assert x in multiset(b);
    k :| 0 <= k < |b| && b[k] == x;
    var resto := b[..k] + b[k + 1..];
    assert b == b[..k] + [x] + b[k + 1..];
    assert resto[..k] == b[..k] && resto[k..] == b[k + 1..];
    assert multiset(resto) == multiset(b) - multiset{x};
    assert multiset(a[..|a| - 1]) == multiset(a) - multiset{x};
  }

  /** The total does not depend on the order of the items. */
  lemma {:induction false} SumaPermutacion<T>(f: T -> real, a: seq<T>, b: seq<T>)
    requires multiset(a) == multiset(b)
    ensures Suma(f, a) == Suma(f, b)
  {
    if a == [] {
      assert |b| == |multiset(b)| == 0;
    } else {
      var k := Localizar(a, b);
      var resto := b[..k] + b[k + 1..];
      SumaPermutacion(f, a[..|a| - 1], resto);
      SumaInsertar(f, resto, k, b[k]);
    }
  }

  /** Non-negative terms give a non-negative total. */
  lemma {:induction false} SumaNoNegativa<T>(f: T -> real, xs: seq<T>)
    requires forall i :: 0 <= i < |xs| ==> f(xs[i]) >= 0.0
    ensures Suma(f, xs) >= 0.0
  {
    if xs != [] {
      SumaNoNegativa(f, xs[..|xs| - 1]);
    }
  }

  /** Doubling every term doubles the total. */
  lemma {:induction false} SumaDoble<T>(f: T -> real, g: T -> real, xs: seq<T>)
    requires forall i :: 0 <= i < |xs| ==> g(xs[i]) == 2.0 * f(xs[i])
    ensures Suma(g, xs) == 2.0 * Suma(f, xs)
  {
    if xs != [] {
      SumaDoble(f, g, xs[..|xs| - 1]);
    }
  }

  /** The same sum when computing a term may raise: the first error stops the loop
      and is what the whole computation raises. */
  function SumaR<T, E>(f: T -> Result<real, E>, xs: seq<T>): Result<real, E> {
    if xs == [] then Ok(0.0)
    else match SumaR(f, xs[..|xs| - 1])
      case Err(e) => Err(e)
      case Ok(t) =>
        match f(xs[|xs| - 1])
        case Err(e) => Err(e)
        case Ok(v) => Ok(t + v)
  }

  /** One more successful step of the loop. */
  lemma SumaRPaso<T, E>(f: T -> Result<real, E>, xs: seq<T>, i: nat, t: real)
    requires i < |xs|
    requires SumaR(f, xs[..i]) == Ok(t) && f(xs[i]).Ok?
    ensures SumaR(f, xs[..i + 1]) == Ok(t + f(xs[i]).value)
  {
    assert xs[..i + 1][..i] == xs[..i];
  }

  /** A term that raises after a run of successful ones is what the whole loop raises. */
  lemma {:induction false} SumaRCorta<T, E>(f: T -> Result<real, E>, xs: seq<T>, i: nat)
    requires i < |xs|
    requires SumaR(f, xs[..i]).Ok? && f(xs[i]).Err?
    ensures SumaR(f, xs) == Err(f(xs[i]).error)
  {
    if |xs| == i + 1 {
      assert xs[..|xs| - 1] == xs[..i];
    } else {
      var init := xs[..|xs| - 1];
      assert init[..i] == xs[..i] && init[i] == xs[i];
      SumaRCorta(f, init, i);
    }
  }

  /** The loop raises nothing exactly when no term raises. */
  lemma {:induction false} SumaROk<T, E>(f: T -> Result<real, E>, xs: seq<T>)
    ensures SumaR(f, xs).Ok? <==> forall i :: 0 <= i < |xs| ==> f(xs[i]).Ok?
  {
    if xs != [] {
      var init := xs[..|xs| - 1];
      SumaROk(f, init);
      if forall i :: 0 <= i < |xs| ==> f(xs[i]).Ok? {
        assert forall i :: 0 <= i < |init| ==> f(init[i]).Ok? by {
          forall i | 0 <= i < |init| ensures f(init[i]).Ok? {
            assert init[i] == xs[i];
          }
        }
      } else if forall i :: 0 <= i < |init| ==> f(init[i]).Ok? {
        var i :| 0 <= i < |xs| && f(xs[i]).Err?;
        if i < |init| {
          assert init[i] == xs[i];
        }
      }
    }
  }

  /** When every term succeeds with the value `g` gives, the loop computes the plain sum of `g`. */
  lemma {:induction false} SumaRValor<T, E>(f: T -> Result<real, E>, g: T -> real, xs: seq<T>)
    requires forall i :: 0 <= i < |xs| ==> f(xs[i]) == Ok(g(xs[i]))
    ensures SumaR(f, xs) == Ok(Suma(g, xs))
  {
    if xs != [] {
      var init := xs[..|xs| - 1];
      assert forall i :: 0 <= i < |init| ==> init[i] == xs[i];
      SumaRValor(f, g, init);
    }
  }

  /** Two item lists of the same length whose items have pairwise equal terms have the
      same total (the items themselves may differ, as when one list is a converted copy). */
  lemma {:induction false} SumaImagenes<T, U>(f: U -> real, g: T -> real, xs: seq<T>, ys: seq<U>)
    requires |ys| == |xs| && forall i :: 0 <= i < |xs| ==> f(ys[i]) == g(xs[i])
    ensures Suma(f, ys) == Suma(g, xs)
  {
    if xs != [] {
      var n := |xs| - 1;
      assert forall i :: 0 <= i < n ==> ys[..n][i] == ys[i] && xs[..n][i] == xs[i];
      SumaImagenes(f, g, xs[..n], ys[..n]);
    }
  }

  /** `f(xs[0]) + ... + f(xs[|xs| - 1])` for sequences: what a loop that appends `f(x)`
      for every item produces. */
  function Concatenar<T, U>(f: T -> seq<U>, xs: seq<T>): seq<U> {
    if xs == [] then [] else Concatenar(f, xs[..|xs| - 1]) + f(xs[|xs| - 1])
  }

  lemma ConcatenarPaso<T, U>(f: T -> seq<U>, xs: seq<T>, i: nat)
    requires i < |xs|
    ensures Concatenar(f, xs[..i + 1]) == Concatenar(f, xs[..i]) + f(xs[i])
  {
    assert xs[..i + 1][..i] == xs[..i];
  }

  /** Nothing is produced exactly when no item produces anything. */
  lemma {:induction false} ConcatenarVacio<T, U>(f: T -> seq<U>, xs: seq<T>)
    ensures Concatenar(f, xs) == [] <==> forall i :: 0 <= i < |xs| ==> f(xs[i]) == []
  {
    if xs != [] {
      var init := xs[..|xs| - 1];
      ConcatenarVacio(f, init);
      if forall i :: 0 <= i < |xs| ==> f(xs[i]) == [] {
        assert forall i :: 0 <= i < |init| ==> f(init[i]) == [] by {
          forall i | 0 <= i < |init| ensures f(init[i]) == [] {
            assert init[i] == xs[i];
          }
        }
      } else if forall i :: 0 <= i < |init| ==> f(init[i]) == [] {
        var i :| 0 <= i < |xs| && f(xs[i]) != [];
        if i < |init| {
          assert init[i] == xs[i];
        }
      }
    }
  }

  /** A sum over three items, item by item. */
  lemma SumaDeTres<T>(f: T -> real, xs: seq<T>)
    requires |xs| == 3
    ensures Suma(f, xs) == f(xs[0]) + f(xs[1]) + f(xs[2])
  {
    SumaPaso(f, xs, 0); SumaPaso(f, xs, 1); SumaPaso(f, xs, 2);
    assert xs[..0] == [];
    assert xs[..3] == xs;
  }

  /** A sum over eight items, item by item. */
  lemma SumaDeOcho<T>(f: T -> real, xs: seq<T>)
    requires |xs| == 8
    ensures Suma(f, xs) == f(xs[0]) + f(xs[1]) + f(xs[2]) + f(xs[3]) + f(xs[4]) + f(xs[5]) + f(xs[6]) + f(xs[7])
  {
    SumaPaso(f, xs, 0); SumaPaso(f, xs, 1); SumaPaso(f, xs, 2); SumaPaso(f, xs, 3);
    SumaPaso(f, xs, 4); SumaPaso(f, xs, 5); SumaPaso(f, xs, 6); SumaPaso(f, xs, 7);
    assert xs[..0] == [];
    assert xs[..8] == xs;
  }

}
