/** Sums over sequences, taken from the last element so that they follow a growing prefix. */
module Sums {

  function Front<T>(s: seq<T>): seq<T>
    requires s != []
  {
    s[..|s| - 1]
  }

  function Last<T>(s: seq<T>): T
    requires s != []
  {
    s[|s| - 1]
  }

  function Abs(v: int): int {
    if v < 0 then -v else v
  }

  function SumOver<T>(s: seq<T>, f: T -> int): int {
    if s == [] then 0 else SumOver(Front(s), f) + f(Last(s))
  }

  lemma {:induction false} SumOverConcat<T>(a: seq<T>, b: seq<T>, f: T -> int)
    ensures SumOver(a + b, f) == SumOver(a, f) + SumOver(b, f)
  {
    if b == [] {
      assert a + b == a;
    } else {
      SumOverConcat(a, Front(b), f);
      assert Front(a + b) == a + Front(b);
    }
  }

  lemma {:induction false} SumOverSame<T>(s: seq<T>, f: T -> int, g: T -> int)
    requires forall u :: u in s ==> f(u) == g(u)
    ensures SumOver(s, f) == SumOver(s, g)
  {
    if s != [] {
      SumOverSame(Front(s), f, g);
      assert Last(s) in s;
    }
  }

  /** A sum does not depend on the order of its summands. */
  lemma {:induction false} SumOverPermuted<T>(a: seq<T>, b: seq<T>, f: T -> int)
    requires multiset(a) == multiset(b)
    ensures SumOver(a, f) == SumOver(b, f)
  {
    assert |multiset(a)| == |multiset(b)|;
    if a != [] {
      var u := Last(a);
      assert u in multiset(b);
      var j :| 0 <= j < |b| && b[j] == u;
      var rest := b[..j] + b[j + 1..];
      assert a == Front(a) + [u];
      assert b == b[..j] + ([u] + b[j + 1..]);
      assert multiset(rest) == multiset(b) - multiset{u};
      SumOverPermuted(Front(a), rest, f);
      SumOverConcat(b[..j], [u] + b[j + 1..], f);
      SumOverConcat([u], b[j + 1..], f);
      SumOverConcat(b[..j], b[j + 1..], f);
      assert SumOver([u], f) == f(u) by { assert Front([u]) == []; }
    }
  }

  lemma {:induction false} SumOverNonNegative<T>(s: seq<T>, f: T -> int)
    requires forall u :: u in s ==> f(u) >= 0
    ensures SumOver(s, f) >= 0
    ensures SumOver(s, f) == 0 <==> forall u :: u in s ==> f(u) == 0
  {
    if s != [] {
      SumOverNonNegative(Front(s), f);
      assert s == Front(s) + [Last(s)];
    }
  }
}
