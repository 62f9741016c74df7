/**
 * Quadratic forms over bits: the value the compiler accumulates, the primitive
 * additions it is built from, and the energy of a bitstring under it.
 */
module QuadraticForm {
  import opened Sums

  /** A bitstring; bits past its end read as 0. */
  type Bits = seq<bool>

  predicate On(x: Bits, p: nat) {
    p < |x| && x[p]
  }

  /** `pairs` holds the full coefficient of x_p * x_q under the ordered key (p, q), p < q. */
  datatype Form = Form(diag: seq<int>, pairs: map<(nat, nat), int>, e0: int)

  predicate WellFormed(f: Form) {
    forall k :: k in f.pairs ==> k.0 < k.1 < |f.diag|
  }

  function Coefficient(f: Form, p: nat, q: nat): int {
    if (p, q) in f.pairs then f.pairs[(p, q)] else 0
  }

  function LinearEnergy(diag: seq<int>, x: Bits): int {
    if diag == [] then 0
    else LinearEnergy(Front(diag), x) + if On(x, |diag| - 1) then Last(diag) else 0
  }

  /** Couplings of bit `p` with the bits in (p, k). */
  function RowEnergy(f: Form, x: Bits, p: nat, k: nat): int {
    if k <= p + 1 then 0
    else RowEnergy(f, x, p, k - 1) + if On(x, p) && On(x, k - 1) then Coefficient(f, p, k - 1) else 0
  }

  /** Couplings of the bits below `p` with every later bit below `n`. */
  function PairEnergy(f: Form, x: Bits, p: nat, n: nat): int {
    if p == 0 then 0 else PairEnergy(f, x, p - 1, n) + RowEnergy(f, x, p - 1, n)
  }

  function Energy(f: Form, x: Bits): int {
    f.e0 + LinearEnergy(f.diag, x) + PairEnergy(f, x, |f.diag|, |f.diag|)
  }

  // ---------------------------------------------------------------------------
  // The primitive additions
  // ---------------------------------------------------------------------------

  function Grow(f: Form, k: nat): Form {
    f.(diag := f.diag + seq(k, _ => 0))
  }

  function AddLinear(f: Form, p: nat, w: int): Form {
    if p < |f.diag| then f.(diag := f.diag[p := f.diag[p] + w]) else f
  }

  function AddPair(f: Form, p: nat, q: nat, alpha: int): Form {
    if p == q then AddLinear(f, p, alpha)
    else
      var k := if p < q then (p, q) else (q, p);
      f.(pairs := f.pairs[k := Coefficient(f, k.0, k.1) + alpha])
  }

  function AddConstant(f: Form, c: int): Form {
    f.(e0 := f.e0 + c)
  }

  datatype Step = Linear(p: nat, w: int) | Pair(p: nat, q: nat, w: int) | Constant(w: int)

  function ApplyStep(f: Form, s: Step): Form {
    match s
    case Linear(p, w) => AddLinear(f, p, w)
    case Pair(p, q, w) => AddPair(f, p, q, w)
    case Constant(w) => AddConstant(f, w)
  }

  function Apply(f: Form, t: seq<Step>): Form {
    if t == [] then f else ApplyStep(Apply(f, Front(t)), Last(t))
  }

  function StepEnergy(s: Step, x: Bits): int {
    match s
    case Linear(p, w) => if On(x, p) then w else 0
    case Pair(p, q, w) => if On(x, p) && On(x, q) then w else 0
    case Constant(w) => w
  }

  function StepsEnergy(t: seq<Step>, x: Bits): int {
    if t == [] then 0 else StepsEnergy(Front(t), x) + StepEnergy(Last(t), x)
  }

  predicate StepWithin(s: Step, n: nat) {
    match s
    case Linear(p, _) => p < n
    case Pair(p, q, _) => p < n && q < n
    case Constant(_) => true
  }

  predicate Within(t: seq<Step>, n: nat) {
    forall i :: 0 <= i < |t| ==> StepWithin(t[i], n)
  }

  lemma {:induction false} ApplyConcat(f: Form, a: seq<Step>, b: seq<Step>)
    ensures Apply(f, a + b) == Apply(Apply(f, a), b)
  {
    if b == [] {
      assert a + b == a;
    } else {
      ApplyConcat(f, a, Front(b));
      assert Front(a + b) == a + Front(b);
    }
  }

  lemma ApplySingle(f: Form, s: Step)
    ensures Apply(f, [s]) == ApplyStep(f, s)
  {
    assert Front([s]) == [];
  }

  lemma {:induction false} StepsEnergyConcat(a: seq<Step>, b: seq<Step>, x: Bits)
    ensures StepsEnergy(a + b, x) == StepsEnergy(a, x) + StepsEnergy(b, x)
  {
    if b == [] {
      assert a + b == a;
    } else {
      StepsEnergyConcat(a, Front(b), x);
      assert Front(a + b) == a + Front(b);
    }
  }

  lemma StepsEnergySingle(s: Step, x: Bits)
    ensures StepsEnergy([s], x) == StepEnergy(s, x)
  {
    assert Front([s]) == [];
  }

  // ---------------------------------------------------------------------------
  // What each addition does to the energy
  // ---------------------------------------------------------------------------

  lemma {:induction false} LinearEnergyUpdate(diag: seq<int>, x: Bits, p: nat, v: int)
    requires p < |diag|
    ensures LinearEnergy(diag[p := v], x) == LinearEnergy(diag, x) + if On(x, p) then v - diag[p] else 0
  {
    var d := diag[p := v];
    if p == |diag| - 1 {
      assert Front(d) == Front(diag);
    } else {
      assert Front(d) == Front(diag)[p := v];
      LinearEnergyUpdate(Front(diag), x, p, v);
    }
  }

  lemma {:induction false} RowEnergyUpdate(f: Form, g: Form, x: Bits, p: nat, q: nat, row: nat, k: nat)
    requires p < q
    requires forall i: nat, j: nat :: (i, j) != (p, q) ==> Coefficient(g, i, j) == Coefficient(f, i, j)
    ensures RowEnergy(g, x, row, k) == RowEnergy(f, x, row, k)
            + if row == p && q < k && On(x, p) && On(x, q) then Coefficient(g, p, q) - Coefficient(f, p, q) else 0
  {
    if k > row + 1 {
      RowEnergyUpdate(f, g, x, p, q, row, k - 1);
      assert (row, k - 1) != (p, q) ==> Coefficient(g, row, k - 1) == Coefficient(f, row, k - 1);
    }
  }

  lemma {:induction false} PairEnergyUpdate(f: Form, g: Form, x: Bits, p: nat, q: nat, row: nat, n: nat)
    requires p < q < n
    requires forall i: nat, j: nat :: (i, j) != (p, q) ==> Coefficient(g, i, j) == Coefficient(f, i, j)
    ensures PairEnergy(g, x, row, n) == PairEnergy(f, x, row, n)
            + if p < row && On(x, p) && On(x, q) then Coefficient(g, p, q) - Coefficient(f, p, q) else 0
  {
    if row > 0 {
      PairEnergyUpdate(f, g, x, p, q, row - 1, n);
      RowEnergyUpdate(f, g, x, p, q, row - 1, n);
    }
  }

  // pair energy reads nothing but the coefficients
  lemma {:induction false} RowEnergySame(f: Form, g: Form, x: Bits, p: nat, k: nat)
    requires f.pairs == g.pairs
    ensures RowEnergy(f, x, p, k) == RowEnergy(g, x, p, k)
  {
    if k > p + 1 { RowEnergySame(f, g, x, p, k - 1); }
  }

  lemma {:induction false} PairEnergySame(f: Form, g: Form, x: Bits, p: nat, n: nat)
    requires f.pairs == g.pairs
    ensures PairEnergy(f, x, p, n) == PairEnergy(g, x, p, n)
  {
    if p > 0 {
      PairEnergySame(f, g, x, p - 1, n);
      RowEnergySame(f, g, x, p - 1, n);
    }
  }

  /** One addition raises the energy of every bitstring by exactly the term it stands for. */
  lemma StepRaisesEnergy(f: Form, s: Step, x: Bits)
    requires WellFormed(f) && StepWithin(s, |f.diag|)
    ensures WellFormed(ApplyStep(f, s)) && |ApplyStep(f, s).diag| == |f.diag|
    ensures Energy(ApplyStep(f, s), x) == Energy(f, x) + StepEnergy(s, x)
  {
    var g := ApplyStep(f, s);
    match s
    case Linear(p, w) =>
      LinearEnergyUpdate(f.diag, x, p, f.diag[p] + w);
      PairEnergySame(f, g, x, |f.diag|, |f.diag|);
    case Constant(w) =>
      PairEnergySame(f, g, x, |f.diag|, |f.diag|);
    case Pair(p, q, w) =>
      if p == q {
        LinearEnergyUpdate(f.diag, x, p, f.diag[p] + w);
        PairEnergySame(f, g, x, |f.diag|, |f.diag|);
      } else {
        var k := if p < q then (p, q) else (q, p);
        PairEnergyUpdate(f, g, x, k.0, k.1, |f.diag|, |f.diag|);
      }
  }

  lemma {:induction false} StepsRaiseEnergy(f: Form, t: seq<Step>, x: Bits)
    requires WellFormed(f) && Within(t, |f.diag|)
    ensures WellFormed(Apply(f, t)) && |Apply(f, t).diag| == |f.diag|
    ensures Energy(Apply(f, t), x) == Energy(f, x) + StepsEnergy(t, x)
  {
    if t != [] {
      StepsRaiseEnergy(f, Front(t), x);
      StepRaisesEnergy(Apply(f, Front(t)), Last(t), x);
    }
  }

  lemma {:induction false} LinearEnergyGrow(diag: seq<int>, k: nat, x: Bits)
    ensures LinearEnergy(diag + seq(k, _ => 0), x) == LinearEnergy(diag, x)
  {
    var d := diag + seq(k, _ => 0);
    if k == 0 {
      assert d == diag;
    } else {
      LinearEnergyGrow(diag, k - 1, x);
      assert Front(d) == diag + seq(k - 1, _ => 0);
    }
  }

  lemma {:induction false} RowEnergyGrow(f: Form, x: Bits, p: nat, n: nat)
    requires WellFormed(f) && |f.diag| <= n
    ensures RowEnergy(f, x, p, n) == RowEnergy(f, x, p, |f.diag|)
    ensures p >= |f.diag| ==> RowEnergy(f, x, p, n) == 0
    decreases n
  {
    if n > |f.diag| && n > p + 1 {
      RowEnergyGrow(f, x, p, n - 1);
      assert (p, n - 1) !in f.pairs;
    }
  }

  lemma {:induction false} PairEnergyGrow(f: Form, x: Bits, p: nat, n: nat)
    requires WellFormed(f) && |f.diag| <= n
    ensures PairEnergy(f, x, p, n) == PairEnergy(f, x, if p < |f.diag| then p else |f.diag|, |f.diag|)
  {
    if p > 0 {
      PairEnergyGrow(f, x, p - 1, n);
      RowEnergyGrow(f, x, p - 1, n);
    }
  }

  /** New bits are free until something is added to them. */
  lemma GrowKeepsEnergy(f: Form, k: nat, x: Bits)
    requires WellFormed(f)
    ensures WellFormed(Grow(f, k)) && Energy(Grow(f, k), x) == Energy(f, x)
  {
    var g := Grow(f, k);
    LinearEnergyGrow(f.diag, k, x);
    PairEnergySame(g, f, x, |g.diag|, |g.diag|);
    PairEnergyGrow(f, x, |g.diag|, |g.diag|);
  }

  // ---------------------------------------------------------------------------
  // Squares: P * (sum of w_i x_i - b)^2 expanded with x^2 = x
  // ---------------------------------------------------------------------------

  datatype Term = Term(bit: nat, weight: int)

  function TermValue(t: Term, x: Bits): int {
    if On(x, t.bit) then t.weight else 0
  }

  /** The value of the linear form: the sum of w_i x_i. */
  function Load(ts: seq<Term>, x: Bits): int {
    if ts == [] then 0 else Load(Front(ts), x) + TermValue(Last(ts), x)
  }

  function Square(v: int): int { v * v }

  function SquaredWeights(ts: seq<Term>, x: Bits): int {
    if ts == [] then 0 else SquaredWeights(Front(ts), x) + Square(TermValue(Last(ts), x))
  }

  function SquareLinear(t: Term, b: int, P: int): Step {
    Linear(t.bit, P * (t.weight * t.weight - 2 * b * t.weight))
  }

  function SquarePair(s: Term, t: Term, P: int): Step {
    Pair(s.bit, t.bit, 2 * P * s.weight * t.weight)
  }

  function SquareLinears(ts: seq<Term>, b: int, P: int): seq<Step> {
    if ts == [] then [] else SquareLinears(Front(ts), b, P) + [SquareLinear(Last(ts), b, P)]
  }

  /** The couplings of term `s` with each term of `ts`, in order. */
  function SquareRow(s: Term, ts: seq<Term>, P: int): seq<Step> {
    if ts == [] then [] else SquareRow(s, Front(ts), P) + [SquarePair(s, Last(ts), P)]
  }

  /** The couplings (i, j) with i < k and i < j, in the order of the double loop. */
  function SquarePairs(ts: seq<Term>, k: nat, P: int): seq<Step>
    requires k <= |ts|
  {
    if k == 0 then [] else SquarePairs(ts, k - 1, P) + SquareRow(ts[k - 1], ts[k..], P)
  }

  function SquareSteps(ts: seq<Term>, b: int, P: int): seq<Step> {
    SquareLinears(ts, b, P) + SquarePairs(ts, |ts|, P) + [Constant(P * b * b)]
  }

  predicate TermsWithin(ts: seq<Term>, n: nat) {
    forall i :: 0 <= i < |ts| ==> ts[i].bit < n
  }

  lemma {:induction false} LoadConcat(a: seq<Term>, b: seq<Term>, x: Bits)
    ensures Load(a + b, x) == Load(a, x) + Load(b, x)
  {
    if b == [] {
      assert a + b == a;
    } else {
      LoadConcat(a, Front(b), x);
      assert Front(a + b) == a + Front(b);
    }
  }

  lemma LoadFirst(ts: seq<Term>, k: nat, x: Bits)
    requires k < |ts|
    ensures Load(ts[k..], x) == TermValue(ts[k], x) + Load(ts[k + 1..], x)
  {
    assert ts[k..] == [ts[k]] + ts[k + 1..];
    LoadConcat([ts[k]], ts[k + 1..], x);
    assert Front([ts[k]]) == [];
  }

  lemma {:induction false} SquareLinearsEnergy(ts: seq<Term>, b: int, P: int, x: Bits)
    ensures StepsEnergy(SquareLinears(ts, b, P), x) == P * (SquaredWeights(ts, x) - 2 * b * Load(ts, x))
  {
    if ts != [] {
      var rest, t := Front(ts), Last(ts);
      SquareLinearsEnergy(rest, b, P, x);
      StepsEnergyConcat(SquareLinears(rest, b, P), [SquareLinear(t, b, P)], x);
      StepsEnergySingle(SquareLinear(t, b, P), x);
      var v := TermValue(t, x);
      assert StepEnergy(SquareLinear(t, b, P), x) == P * (v * v - 2 * b * v);
      Distribute(P, SquaredWeights(rest, x) - 2 * b * Load(rest, x), v * v - 2 * b * v);
      Distribute(2 * b, Load(rest, x), v);
    }
  }

  lemma Distribute(p: int, a: int, b: int)
    ensures p * (a + b) == p * a + p * b
  {
  }

  lemma {:induction false} SquareRowEnergy(s: Term, ts: seq<Term>, P: int, x: Bits)
    ensures StepsEnergy(SquareRow(s, ts, P), x) == 2 * P * TermValue(s, x) * Load(ts, x)
  {
    if ts != [] {
      var rest, t := Front(ts), Last(ts);
      SquareRowEnergy(s, rest, P, x);
      StepsEnergyConcat(SquareRow(s, rest, P), [SquarePair(s, t, P)], x);
      StepsEnergySingle(SquarePair(s, t, P), x);
      assert StepEnergy(SquarePair(s, t, P), x) == 2 * P * TermValue(s, x) * TermValue(t, x);
      Distribute(2 * P * TermValue(s, x), Load(rest, x), TermValue(t, x));
    }
  }

  lemma SquareStep(P: int, A: int, B: int, Q: int, v: int)
    ensures P * (A * A - Q + 2 * A * B) + 2 * P * v * (B - v)
         == P * ((A + v) * (A + v) - (Q + v * v) + 2 * (A + v) * (B - v))
  {
    assert (A + v) * (A + v) - (Q + v * v) + 2 * (A + v) * (B - v) == (A * A - Q + 2 * A * B) + 2 * v * (B - v);
    Distribute(P, A * A - Q + 2 * A * B, 2 * v * (B - v));
    assert P * (2 * v * (B - v)) == 2 * P * v * (B - v);
  }

  lemma {:induction false} SquarePairsEnergy(ts: seq<Term>, k: nat, P: int, x: Bits)
    requires k <= |ts|
    ensures var A, B := Load(ts[..k], x), Load(ts[k..], x);
            StepsEnergy(SquarePairs(ts, k, P), x) == P * (A * A - SquaredWeights(ts[..k], x) + 2 * A * B)
  {
    hide SquareRow, TermValue;
    if k > 0 {
      SquarePairsEnergy(ts, k - 1, P, x);
      SquareRowEnergy(ts[k - 1], ts[k..], P, x);
      StepsEnergyConcat(SquarePairs(ts, k - 1, P), SquareRow(ts[k - 1], ts[k..], P), x);
      LoadFirst(ts, k - 1, x);
      assert Front(ts[..k]) == ts[..k - 1];
      SquareStep(P, Load(ts[..k - 1], x), Load(ts[k - 1..], x), SquaredWeights(ts[..k - 1], x), TermValue(ts[k - 1], x));
    }
  }

  lemma AllPairsEnergy(ts: seq<Term>, P: int, x: Bits)
    ensures StepsEnergy(SquarePairs(ts, |ts|, P), x) == P * (Square(Load(ts, x)) - SquaredWeights(ts, x))
  {
    SquarePairsEnergy(ts, |ts|, P, x);
    assert ts[..|ts|] == ts && ts[|ts|..] == [];
    assert 2 * Load(ts, x) * Load([], x) == 0;
  }

  lemma SquareIdentity(P: int, A: int, Q: int, b: int)
    ensures P * (Q - 2 * b * A) + P * (Square(A) - Q) + P * b * b == P * Square(A - b)
  {
    assert Square(A - b) == (Q - 2 * b * A) + ((Square(A) - Q) + b * b);
    Distribute(P, Q - 2 * b * A, (Square(A) - Q) + b * b);
    Distribute(P, Square(A) - Q, b * b);
    assert P * (b * b) == P * b * b;
  }

  /** The expansion of a squared linear form has exactly the energy of the square, for every bitstring. */
  lemma SquareStepsEnergy(ts: seq<Term>, b: int, P: int, x: Bits)
    ensures StepsEnergy(SquareSteps(ts, b, P), x) == P * Square(Load(ts, x) - b)
  {
    hide SquareLinears, SquarePairs, StepsEnergy, Load, SquaredWeights, Square;
    var lin, pairs, last := SquareLinears(ts, b, P), SquarePairs(ts, |ts|, P), Constant(P * b * b);
    StepsEnergyConcat(lin + pairs, [last], x);
    StepsEnergyConcat(lin, pairs, x);
    StepsEnergySingle(last, x);
    SquareLinearsEnergy(ts, b, P, x);
    AllPairsEnergy(ts, P, x);
    SquareIdentity(P, Load(ts, x), SquaredWeights(ts, x), b);
  }

  lemma {:induction false} SquareLinearsWithin(ts: seq<Term>, b: int, P: int, n: nat)
    requires TermsWithin(ts, n)
    ensures Within(SquareLinears(ts, b, P), n)
  {
    if ts != [] { SquareLinearsWithin(Front(ts), b, P, n); }
  }

  lemma {:induction false} SquareRowWithin(s: Term, ts: seq<Term>, P: int, n: nat)
    requires s.bit < n && TermsWithin(ts, n)
    ensures Within(SquareRow(s, ts, P), n)
  {
    if ts != [] { SquareRowWithin(s, Front(ts), P, n); }
  }

  lemma {:induction false} SquarePairsWithin(ts: seq<Term>, k: nat, P: int, n: nat)
    requires k <= |ts| && TermsWithin(ts, n)
    ensures Within(SquarePairs(ts, k, P), n)
  {
    if k > 0 {
      SquarePairsWithin(ts, k - 1, P, n);
      SquareRowWithin(ts[k - 1], ts[k..], P, n);
    }
  }

  lemma SquareStepsWithin(ts: seq<Term>, b: int, P: int, n: nat)
    requires TermsWithin(ts, n)
    ensures Within(SquareSteps(ts, b, P), n)
  {
    SquareLinearsWithin(ts, b, P, n);
    SquarePairsWithin(ts, |ts|, P, n);
  }
}
