/** Evaluating the compiler's functions on scenarios small enough to write down. */
module SmallForms {
  import opened Sums
  import opened QuadraticForm
  import opened CompilerSpec

  lemma SquareOfTwo(y: nat, z: nat, P: int)
    ensures SquareSteps([Term(y, 1), Term(z, 1)], 1, P) == [Linear(y, -P), Linear(z, -P), Pair(y, z, 2 * P), Constant(P)]
  {
    var a, b := Term(y, 1), Term(z, 1);
    assert Front([a, b]) == [a] && Front([a]) == [] && [a, b][1..] == [b] && [a, b][2..] == [] && Front([b]) == [];
    assert SquareLinears([a], 1, P) == [Linear(y, -P)];
    assert SquareRow(a, [b], P) == [Pair(y, z, 2 * P)];
    assert SquarePairs([a, b], 1, P) == [Pair(y, z, 2 * P)];
  }

  lemma ApplyFour(f: Form, a: Step, b: Step, c: Step, d: Step)
    ensures Apply(f, [a, b, c, d]) == ApplyStep(ApplyStep(ApplyStep(ApplyStep(f, a), b), c), d)
  {
    assert Front([a, b, c, d]) == [a, b, c] && Front([a, b, c]) == [a, b] && Front([a, b]) == [a] && Front([a]) == [];
    assert Apply(f, [a]) == ApplyStep(f, a);
    assert Apply(f, [a, b]) == ApplyStep(ApplyStep(f, a), b);
    assert Apply(f, [a, b, c]) == ApplyStep(ApplyStep(ApplyStep(f, a), b), c);
  }

  lemma NoSteps(f: Form)
    ensures Apply(f, []) == f
  {
  }

  lemma {:induction false} NoFloorRefusal(cs: seq<Constraint>, delta: int)
    requires forall c :: c in cs ==> c.penalty > delta
    ensures FloorRefusals(cs, delta) == []
  {
    if cs != [] {
      assert Last(cs) in cs;
      NoFloorRefusal(Front(cs), delta);
    }
  }
}
