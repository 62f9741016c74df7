/** The compiler's accumulator: `diag`, `pairs` and `E0`, updated in place. */
module QuboBuilding {
  import opened Sums
  import opened QuadraticForm
  import opened Artifact

  class QuboBuilder {
    var diag: seq<int>
    /** Couplings of two different bits, under the pair of their indices in increasing order. */
    var pairs: map<(nat, nat), int>
    var E0: int

    /** The accumulated quadratic form. */
    ghost function Contents(): Form
      reads this
    {
      Form(diag, pairs, E0)
    }

    constructor ()
      ensures Contents() == Form([], map[], 0)
    {
      diag, pairs, E0 := [], map[], 0;
    }

    method AddBit() returns (p: nat)
      modifies this
      ensures p == |old(diag)| && Contents() == Grow(old(Contents()), 1)
    {
      diag := diag + [0];
      p := |diag| - 1;
    }

    method AddLinear(p: nat, w: int)
      requires p < |diag|
      modifies this
      ensures Contents() == ApplyStep(old(Contents()), Linear(p, w))
    {
      diag := diag[p := diag[p] + w];
    }

    method AddPair(p: nat, q: nat, alpha: int)
      requires p < |diag| && q < |diag|
      modifies this
      ensures Contents() == ApplyStep(old(Contents()), Pair(p, q, alpha))
    {
      if p == q {
        AddLinear(p, alpha);
        return;
      }
      var a, b := p, q;
      if q < p {
        a, b := q, p;
      }
      var current := if (a, b) in pairs then pairs[(a, b)] else 0;
      pairs := pairs[(a, b) := current + alpha];
    }

    /** The inner loop of the expansion: the couplings of term `i` with the terms after it. */
    method AddSquareRow(ts: seq<Term>, i: nat, P: int)
      requires i < |ts| && TermsWithin(ts, |diag|)
      modifies this
      ensures Contents() == Apply(old(Contents()), SquareRow(ts[i], ts[i + 1..], P))
      ensures |diag| == |old(diag)|
    {
      ghost var f := Contents();
      for j := i + 1 to |ts|
        invariant |diag| == |f.diag|
        invariant Contents() == Apply(f, SquareRow(ts[i], ts[i + 1..j], P))
      {
        var step := SquarePair(ts[i], ts[j], P);
        AddPair(step.p, step.q, step.w);
        assert Front(ts[i + 1..j + 1]) == ts[i + 1..j];
        ghost var done := SquareRow(ts[i], ts[i + 1..j], P);
        assert SquareRow(ts[i], ts[i + 1..j + 1], P) == done + [step];
        assert Front(done + [step]) == done;
      }
      assert ts[i + 1..|ts|] == ts[i + 1..];
    }

    /** The first loop of the expansion: the linear terms. */
    method AddSquareLinears(ts: seq<Term>, b: int, P: int)
      requires TermsWithin(ts, |diag|)
      modifies this
      ensures Contents() == Apply(old(Contents()), SquareLinears(ts, b, P))
      ensures |diag| == |old(diag)|
    {
      ghost var f := Contents();
      for i := 0 to |ts|
        invariant |diag| == |f.diag|
        invariant Contents() == Apply(f, SquareLinears(ts[..i], b, P))
      {
        var step := SquareLinear(ts[i], b, P);
        AddLinear(step.p, step.w);
        assert Front(ts[..i + 1]) == ts[..i];
        ghost var done := SquareLinears(ts[..i], b, P);
        assert SquareLinears(ts[..i + 1], b, P) == done + [step];
        assert Front(done + [step]) == done;
      }
      assert ts[..|ts|] == ts;
    }

    /** The double loop of the expansion: one coupling per unordered pair of terms. */
    method AddSquarePairs(ts: seq<Term>, P: int)
      requires TermsWithin(ts, |diag|)
      modifies this
      ensures Contents() == Apply(old(Contents()), SquarePairs(ts, |ts|, P))
      ensures |diag| == |old(diag)|
    {
      ghost var f := Contents();
      for i := 0 to |ts|
        invariant |diag| == |f.diag|
        invariant Contents() == Apply(f, SquarePairs(ts, i, P))
      {
        AddSquareRow(ts, i, P);
        ApplyConcat(f, SquarePairs(ts, i, P), SquareRow(ts[i], ts[i + 1..], P));
      }
    }

    /** Adds P * (sum of w_p x_p - b)^2 expanded over bits. */
    method AddSquaredLinear(ts: seq<Term>, b: int, P: int)
      requires TermsWithin(ts, |diag|)
      modifies this
      ensures Contents() == Apply(old(Contents()), SquareSteps(ts, b, P))
      ensures |diag| == |old(diag)|
    {
      ghost var f, lin, pairs, last := Contents(), SquareLinears(ts, b, P), SquarePairs(ts, |ts|, P), Constant(P * b * b);
      AddSquareLinears(ts, b, P);
      AddSquarePairs(ts, P);
      E0 := E0 + P * b * b;
      ApplyConcat(f, lin, pairs);
      ApplyConcat(f, lin + pairs, [last]);
      ApplySingle(Apply(f, lin + pairs), last);
    }

    /** The nonzero couplings halved and sorted, whatever order the entries are visited in. */
    method Offdiagonal() returns (out: seq<SymEntry>)
      requires WellFormed(Contents())
      ensures out == Offdiag(Contents())
    {
      out := [];
      var rest := pairs.Keys;
      while rest != {}
        invariant rest <= pairs.Keys
        invariant forall e :: e in out <==> Lists(Contents(), e) && (e.i, e.j) !in rest
        invariant DistinctPlaces(out)
        decreases |rest|
      {
        var k :| k in rest;
        rest := rest - {k};
        var alpha := pairs[k];
        if alpha != 0 {
          ghost var before := out;
          var entry := SymEntry(k.0, k.1, alpha as real / 2.0);
          assert forall i :: 0 <= i < |out| ==> out[i] in out;
          out := out + [entry];
          assert forall e :: e in out <==> e in before || e == entry;
          assert k == (k.0, k.1);
        }
      }
      SortEntriesSorts(out);
      OffdiagIs(Contents());
      out := SortEntries(out);
      StrictlySortedIsUnique(out, Offdiag(Contents()));
    }
  }
}
