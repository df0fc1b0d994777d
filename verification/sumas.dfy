/** Column sums, as pandas' `Series.sum()` computes them (exactly, over reals). */
module Sumas {

  /** The sum of `f` over the rows; 0 for no rows. */
  function Suma<T>(s: seq<T>, f: T -> real): (r: real)
  {
    if s == [] then 0.0 else f(s[0]) + Suma(s[1..], f)
  }

  lemma {:induction false} SumaConcat<T>(a: seq<T>, b: seq<T>, f: T -> real)
    ensures Suma(a + b, f) == Suma(a, f) + Suma(b, f)
  {
    if a != [] {
      assert (a + b)[1..] == a[1..] + b;
      SumaConcat(a[1..], b, f);
    } else {
      assert a + b == b;
    }
  }

  /** A sum does not depend on the order of the rows. */
  lemma {:induction false} SumaPermutacion<T>(a: seq<T>, b: seq<T>, f: T -> real)
    requires multiset(a) == multiset(b)
    ensures Suma(a, f) == Suma(b, f)
  {
    if a == [] {
      assert |b| == |multiset(b)| == 0;
    } else {
      var x := a[0];
      assert x in multiset(b);
      var k :| 0 <= k < |b| && b[k] == x;
      var resto := b[..k] + b[k + 1..];
      assert b == b[..k] + [x] + b[k + 1..];
      assert a == [x] + a[1..];
      calc {
        multiset(a[1..]);
        multiset(a) - multiset{x};
        multiset(b[..k] + [x] + b[k + 1..]) - multiset{x};
        multiset(b[..k]) + multiset(b[k + 1..]);
        multiset(resto);
      }
      SumaPermutacion(a[1..], resto, f);
      SumaConcat(b[..k] + [x], b[k + 1..], f);
      SumaConcat(b[..k], [x], f);
      SumaConcat(b[..k], b[k + 1..], f);
    }
  }
}
