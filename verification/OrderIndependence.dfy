/**
 * The artifact does not depend on the order in which draws, precedence pairs or
 * concentration pairs are listed, but for the order of its constraint list, and
 * that depends on it exactly when two precedence pairs share a joined key.
 */
module OrderIndependence {
  import opened Sums
  import opened Ordering
  import opened QuadraticForm
  import opened Artifact
  import opened Scenario
  import opened CompilerSpec
  import opened Decomposition
  import opened VariableTable
  import opened EnergyTerms
  import opened Meaning
  import opened Representation

  /** The same scenario with its three unordered lists written in another order. */
  ghost predicate Reordered(s: FrozenScenario, t: FrozenScenario) {
    && s.header == t.header && s.windows == t.windows
    && multiset(s.draws) == multiset(t.draws)
    && multiset(s.precedence) == multiset(t.precedence)
    && multiset(s.concentrationPairs) == multiset(t.concentrationPairs)
  }

  // ---------------------------------------------------------------------------
  // Concentration: an unordered sum, even with tied sort keys
  // ---------------------------------------------------------------------------

  function CrowdingWeight(v: Variables, ws: seq<Window>): Concentration -> int {
    (c: Concentration) => if c.weight == 0 then 0 else StepsWeight(CrowdingSteps(v, c, ws))
  }

  lemma {:induction false} ConcentrationWeight(v: Variables, cs: seq<Concentration>, ws: seq<Window>)
    ensures StepsWeight(ConcentrationSteps(v, cs, ws)) == SumOver(cs, CrowdingWeight(v, ws))
  {
    if cs != [] {
      ConcentrationWeight(v, Front(cs), ws);
      var rest := ConcentrationSteps(v, Front(cs), ws);
      if Last(cs).weight == 0 {
        assert ConcentrationSteps(v, cs, ws) == rest;
      } else {
        StepsWeightConcat(rest, CrowdingSteps(v, Last(cs), ws));
      }
    }
  }

  lemma ConcentrationPermuted(v: Variables, a: seq<Concentration>, b: seq<Concentration>, ws: seq<Window>, x: Bits)
    requires multiset(a) == multiset(b)
    ensures StepsEnergy(ConcentrationSteps(v, a, ws), x) == StepsEnergy(ConcentrationSteps(v, b, ws), x)
    ensures StepsWeight(ConcentrationSteps(v, a, ws)) == StepsWeight(ConcentrationSteps(v, b, ws))
  {
    ConcentrationTotal(v, a, ws, x);
    ConcentrationTotal(v, b, ws, x);
    ConcentrationWeight(v, a, ws);
    ConcentrationWeight(v, b, ws);
    SumOverPermuted(a, b, CrowdingValue(v, x, ws));
    SumOverPermuted(a, b, CrowdingWeight(v, ws));
  }

  // ---------------------------------------------------------------------------
  // Precedence: the constraints are the same up to order
  // ---------------------------------------------------------------------------

  /** Some placement of the pair is forbidden, so the pair has a constraint. */
  predicate Bites(v: Variables, pr: Precedence, ws: seq<Window>, P: int) {
    StepBits(ForbiddenSteps(v, pr, ws, |ws|, P)) != {}
  }

  function ConstraintOf(v: Variables, pr: Precedence, ws: seq<Window>, P: int): Constraint {
    Constraint("prec[" + pr.before + "<" + pr.after + "]", PrecedenceKind, P, 0, 1,
               StepBits(ForbiddenSteps(v, pr, ws, |ws|, P)))
  }

  /** How often a pair contributes the constraint `c`. */
  function Contributes(v: Variables, ws: seq<Window>, P: int, c: Constraint): Precedence -> int {
    (pr: Precedence) => if Bites(v, pr, ws, P) && ConstraintOf(v, pr, ws, P) == c then 1 else 0
  }

  lemma {:induction false} ConstraintsCounted(v: Variables, ps: seq<Precedence>, ws: seq<Window>, P: int, c: Constraint)
    ensures multiset(PrecedenceConstraints(v, ps, ws, P))[c] == SumOver(ps, Contributes(v, ws, P, c))
  {
    if ps != [] {
      ConstraintsCounted(v, Front(ps), ws, P, c);
      var rest := PrecedenceConstraints(v, Front(ps), ws, P);
      if Bites(v, Last(ps), ws, P) {
        assert PrecedenceConstraints(v, ps, ws, P) == rest + [ConstraintOf(v, Last(ps), ws, P)];
      } else {
        assert PrecedenceConstraints(v, ps, ws, P) == rest;
      }
    }
  }

  lemma ConstraintsPermuted(v: Variables, a: seq<Precedence>, b: seq<Precedence>, ws: seq<Window>, P: int)
    requires multiset(a) == multiset(b)
    ensures multiset(PrecedenceConstraints(v, a, ws, P)) == multiset(PrecedenceConstraints(v, b, ws, P))
  {
    var cs, ds := PrecedenceConstraints(v, a, ws, P), PrecedenceConstraints(v, b, ws, P);
    forall c ensures multiset(cs)[c] == multiset(ds)[c] {
      ConstraintsCounted(v, a, ws, P, c);
      ConstraintsCounted(v, b, ws, P, c);
      SumOverPermuted(a, b, Contributes(v, ws, P, c));
    }
  }

  lemma {:induction false} ConstraintsAlike(v: Variables, ps: seq<Precedence>, ws: seq<Window>, P: int)
    ensures forall i :: 0 <= i < |PrecedenceConstraints(v, ps, ws, P)| ==>
      PrecedenceConstraints(v, ps, ws, P)[i].kind == PrecedenceKind && PrecedenceConstraints(v, ps, ws, P)[i].penalty == P
  {
    if ps != [] { ConstraintsAlike(v, Front(ps), ws, P); }
  }

  // ---------------------------------------------------------------------------
  // The budget phase looks at everything but the form
  // ---------------------------------------------------------------------------

  /** Both states agree in all but their forms and the constraints up to some point. */
  ghost predicate SameFrom(a: BudgetState, b: BudgetState, n: nat) {
    && |a.constraints| == |b.constraints| >= n && a.constraints[n..] == b.constraints[n..]
    && a == b.(form := a.form, constraints := a.constraints)
  }

  lemma {:induction false} BudgetsIgnoreForm(a: BudgetState, b: BudgetState, n: nat, v: Variables, draws: seq<Draw>, ws: seq<Window>,
                                            policy: PenaltyPolicy, x: Bits)
    requires PositiveAmounts(draws) && PositiveCaps(ws) && SameFrom(a, b, n)
    ensures SameFrom(Budgets(a, v, draws, ws, policy), Budgets(b, v, draws, ws, policy), n)
    ensures a.constraints <= Budgets(a, v, draws, ws, policy).constraints
    ensures BudgetsEnergy(a, v, draws, ws, policy, x) == BudgetsEnergy(b, v, draws, ws, policy, x)
  {
    if ws != [] {
      BudgetsIgnoreForm(a, b, n, v, draws, Front(ws), policy, x);
      MembersPositive(v, draws, Last(ws).id);
      StepIgnoresForm(Budgets(a, v, draws, Front(ws), policy), Budgets(b, v, draws, Front(ws), policy), n,
                      Members(v, draws, Last(ws).id), Last(ws), policy);
    }
  }

  lemma StepIgnoresForm(a: BudgetState, b: BudgetState, n: nat, ms: seq<Member>, w: Window, policy: PenaltyPolicy)
    requires PositiveMembers(ms) && w.liquidityCapMinor > 0 && SameFrom(a, b, n)
    ensures SameFrom(BudgetStep(a, ms, w, policy), BudgetStep(b, ms, w, policy), n)
    ensures a.constraints <= BudgetStep(a, ms, w, policy).constraints
  {
    hide SquareSteps, OverCapPairs, BudgetTerms, Apply, Grow;
  }

  // ---------------------------------------------------------------------------
  // Sorting
  // ---------------------------------------------------------------------------

  lemma DrawsDetermined(ds: seq<Draw>)
    requires UniqueDraws(ds)
    ensures KeyDetermines(ds, DrawKey)
  {
    forall i, j | 0 <= i < |ds| && 0 <= j < |ds| && DrawKey(ds[i]) == DrawKey(ds[j]) ensures ds[i] == ds[j] {
      UniqueIndex(ds, i, j);
    }
  }

  /** Draw ids without a bar make the precedence sort keys unambiguous. */
  lemma PrecedenceDetermined(ps: seq<Precedence>)
    requires forall i :: 0 <= i < |ps| ==> NoBar(ps[i].before)
    ensures KeyDetermines(ps, PrecedenceKey)
  {
    forall i, j | 0 <= i < |ps| && 0 <= j < |ps| && PrecedenceKey(ps[i]) == PrecedenceKey(ps[j]) ensures ps[i] == ps[j] {
      assert PrecedenceKey(ps[i]) == BitKey(ps[i].before, ps[i].after);
      assert PrecedenceKey(ps[j]) == BitKey(ps[j].before, ps[j].after);
      JoinInjective(ps[i].before, ps[i].after, ps[j].before, ps[j].after);
    }
  }

  lemma SortedSame(s: FrozenScenario, t: FrozenScenario)
    requires Reordered(s, t) && UniqueDraws(s.draws)
    ensures SortedDraws(s) == SortedDraws(t)
    ensures multiset(SortedPrecedence(s)) == multiset(SortedPrecedence(t))
    ensures multiset(SortedConcentration(s)) == multiset(SortedConcentration(t))
  {
    DrawsDetermined(s.draws);
    SortForgetsOrder(s.draws, t.draws, DrawKey);
    SortBySorts(s.precedence, PrecedenceKey);
    SortBySorts(t.precedence, PrecedenceKey);
    SortBySorts(s.concentrationPairs, ConcentrationKey);
    SortBySorts(t.concentrationPairs, ConcentrationKey);
  }

  // ---------------------------------------------------------------------------
  // Validity does not depend on the order
  // ---------------------------------------------------------------------------

  lemma SameElements<T(!new)>(a: seq<T>, b: seq<T>)
    requires multiset(a) == multiset(b)
    ensures forall u :: u in a <==> u in b
  {
    forall u ensures u in a <==> u in b {
      assert u in a <==> u in multiset(a);
      assert u in b <==> u in multiset(b);
    }
  }

  lemma UniquePermuted(s: FrozenScenario, t: FrozenScenario)
    requires multiset(s.draws) == multiset(t.draws) && UniqueDraws(s.draws)
    ensures UniqueDraws(t.draws)
  {
    var a, b := s.draws, t.draws;
    forall i, j | 0 <= i < j < |b| ensures b[i].id != b[j].id {
      if b[i].id == b[j].id {
        assert b[i] in multiset(a) && b[j] in multiset(a);
        var m :| 0 <= m < |a| && a[m] == b[i];
        var n :| 0 <= n < |a| && a[n] == b[j];
        UniqueIndex(a, m, n);
        TwiceInMultiset(b, i, j);
        OnceInMultiset(a, m);
      }
    }
  }

  lemma TwiceInMultiset(b: seq<Draw>, i: nat, j: nat)
    requires i < j < |b| && b[i] == b[j]
    ensures multiset(b)[b[i]] >= 2
  {
    assert b == (b[..i] + [b[i]]) + (b[i + 1..j] + ([b[j]] + b[j + 1..]));
  }

  lemma OnceInMultiset(a: seq<Draw>, m: nat)
    requires UniqueDraws(a) && m < |a|
    ensures multiset(a)[a[m]] == 1
  {
    assert a == a[..m] + ([a[m]] + a[m + 1..]);
    assert a[m] !in a[..m] && a[m] !in a[m + 1..];
  }

  lemma ReorderedIsValid(s: FrozenScenario, t: FrozenScenario, policy: PenaltyPolicy)
    requires Reordered(s, t) && ValidScenario(s, policy)
    ensures ValidScenario(t, policy)
  {
    UniquePermuted(s, t);
    SameElements(s.draws, t.draws);
    SameElements(s.precedence, t.precedence);
    SameElements(s.concentrationPairs, t.concentrationPairs);
    hide ValidDraw, ValidPrecedence, ValidConcentration, ValidHeader, ValidWindow, UniqueDraws, UniqueWindows;
    forall i | 0 <= i < |t.draws| ensures ValidDraw(t.draws[i], WindowIds(t.windows)) {
      assert t.draws[i] in s.draws;
    }
    NonEmptyIds(s, policy);
    SameDrawIds(s, t);
    forall i | 0 <= i < |t.precedence| ensures ValidPrecedence(t.precedence[i], DrawIds(t.draws)) {
      assert t.precedence[i] in s.precedence;
    }
    forall i | 0 <= i < |t.concentrationPairs| ensures ValidConcentration(t.concentrationPairs[i], DrawIds(t.draws)) {
      assert t.concentrationPairs[i] in s.concentrationPairs;
    }
  }

  lemma NonEmptyIds(s: FrozenScenario, policy: PenaltyPolicy)
    requires ValidScenario(s, policy)
    ensures forall i :: 0 <= i < |s.draws| ==> s.draws[i].id != ""
  {
    forall i | 0 <= i < |s.draws| ensures s.draws[i].id != "" {
      assert ValidDraw(s.draws[i], WindowIds(s.windows));
    }
  }

  lemma SameDrawIds(s: FrozenScenario, t: FrozenScenario)
    requires forall d :: d in s.draws <==> d in t.draws
    requires forall i :: 0 <= i < |s.draws| ==> s.draws[i].id != ""
    ensures DrawIds(s.draws) == DrawIds(t.draws)
  {
    forall i | 0 <= i < |t.draws| ensures t.draws[i].id != "" {
      assert t.draws[i] in s.draws;
    }
    forall id ensures id in DrawIds(s.draws) <==> id in DrawIds(t.draws) {
      DrawIdsAre(s.draws, id);
      DrawIdsAre(t.draws, id);
      DrawKnownPermuted(s.draws, t.draws, id);
    }
  }

  // ---------------------------------------------------------------------------
  // The whole compilation
  // ---------------------------------------------------------------------------

  /** What sorting leaves of two orders of one scenario. */
  ghost predicate Aligned(s: FrozenScenario, t: FrozenScenario) {
    && s.header == t.header && s.windows == t.windows && SortedDraws(s) == SortedDraws(t)
    && multiset(SortedPrecedence(s)) == multiset(SortedPrecedence(t))
    && multiset(SortedConcentration(s)) == multiset(SortedConcentration(t))
  }

  lemma EconomySame(s: FrozenScenario, t: FrozenScenario, x: Bits)
    requires Aligned(s, t)
    ensures EconomicEnergy(s, x) == EconomicEnergy(t, x) && DeltaOf(s) == DeltaOf(t)
  {
    var v, ds, ws := VariablesOf(s), SortedDraws(s), s.windows;
    EveryDrawNamed(ds, ws);
    var a, b := SortedConcentration(s), SortedConcentration(t);
    ConcentrationPermuted(v, a, b, ws, x);
    StepsEnergyConcat(ObjectiveSteps(v, ds, ws), ConcentrationSteps(v, a, ws), x);
    StepsEnergyConcat(ObjectiveSteps(v, ds, ws), ConcentrationSteps(v, b, ws), x);
    StepsWeightConcat(ObjectiveSteps(v, ds, ws), ConcentrationSteps(v, a, ws));
    StepsWeightConcat(ObjectiveSteps(v, ds, ws), ConcentrationSteps(v, b, ws));
  }

  lemma PrecedenceSame(s: FrozenScenario, t: FrozenScenario, P: int, x: Bits)
    requires Aligned(s, t)
    ensures PrecedenceEnergy(s, P, x) == PrecedenceEnergy(t, P, x)
  {
    var v, a, b := VariablesOf(s), SortedPrecedence(s), SortedPrecedence(t);
    PrecedenceTotal(v, a, s.windows, P, x);
    PrecedenceTotal(v, b, s.windows, P, x);
    SumOverPermuted(a, b, Inversions(v, x, s.windows));
  }

  /** The two lists have constraints of the same kind and penalty at position `i`. */
  predicate AlikeAt(a: seq<Constraint>, b: seq<Constraint>, i: nat) {
    i < |a| && i < |b| && a[i].kind == b[i].kind && a[i].penalty == b[i].penalty
  }

  lemma SameHead(head: seq<Constraint>, a: seq<Constraint>, b: seq<Constraint>, kind: Kind, P: int)
    requires multiset(a) == multiset(b)
    requires forall i :: 0 <= i < |a| ==> a[i].kind == kind && a[i].penalty == P
    requires forall i :: 0 <= i < |b| ==> b[i].kind == kind && b[i].penalty == P
    ensures |a| == |b| && multiset(head + a) == multiset(head + b)
    ensures forall i :: 0 <= i < |head + a| ==> AlikeAt(head + a, head + b, i)
  {
    assert |multiset(a)| == |multiset(b)|;
  }

  lemma BeforeFields(s: FrozenScenario, policy: PenaltyPolicy)
    ensures Named(VariablesOf(s), SortedDraws(s))
    ensures var st := StateBeforeBudgets(s, policy);
            st == BudgetState(st.form, VariablesOf(s).symbols,
                              CardinalityConstraints(VariablesOf(s), SortedDraws(s), s.windows, policy.cardinality)
                              + PrecedenceConstraints(VariablesOf(s), SortedPrecedence(s), s.windows, policy.precedence),
                              map[], map[], [])
  {
    EveryDrawNamed(SortedDraws(s), s.windows);
  }

  lemma BeforeSame(s: FrozenScenario, t: FrozenScenario, policy: PenaltyPolicy) returns (n: nat)
    requires Aligned(s, t)
    ensures n == |StateBeforeBudgets(s, policy).constraints| == |StateBeforeBudgets(t, policy).constraints|
    ensures SameFrom(StateBeforeBudgets(s, policy), StateBeforeBudgets(t, policy), n)
    ensures multiset(StateBeforeBudgets(s, policy).constraints) == multiset(StateBeforeBudgets(t, policy).constraints)
    ensures forall i :: 0 <= i < n ==> AlikeAt(StateBeforeBudgets(s, policy).constraints, StateBeforeBudgets(t, policy).constraints, i)
  {
    var v, ds, ws, P := VariablesOf(s), SortedDraws(s), s.windows, policy.precedence;
    BeforeFields(s, policy);
    BeforeFields(t, policy);
    hide PrecedenceConstraints, CardinalityConstraints, NameVariables, SortBy, AlikeAt, StateBeforeBudgets;
    var a, b := PrecedenceConstraints(v, SortedPrecedence(s), ws, P), PrecedenceConstraints(v, SortedPrecedence(t), ws, P);
    ConstraintsPermuted(v, SortedPrecedence(s), SortedPrecedence(t), ws, P);
    ConstraintsAlike(v, SortedPrecedence(s), ws, P);
    ConstraintsAlike(v, SortedPrecedence(t), ws, P);
    SameHead(CardinalityConstraints(v, ds, ws, policy.cardinality), a, b, PrecedenceKind, P);
    n := |StateBeforeBudgets(s, policy).constraints|;
  }

  lemma {:induction false} FloorLooksAtKinds(a: seq<Constraint>, b: seq<Constraint>, delta: int)
    requires |a| == |b| && forall i :: 0 <= i < |a| ==> AlikeAt(a, b, i)
    ensures FloorRefusals(a, delta) == FloorRefusals(b, delta)
  {
    if a != [] {
      assert AlikeAt(a, b, |a| - 1);
      forall i | 0 <= i < |a| - 1 ensures AlikeAt(Front(a), Front(b), i) { assert AlikeAt(a, b, i); }
      FloorLooksAtKinds(Front(a), Front(b), delta);
    }
  }

  lemma FormsHaveSameEnergy(s: FrozenScenario, t: FrozenScenario, policy: PenaltyPolicy, x: Bits)
    requires PositiveAmounts(s.draws) && PositiveAmounts(t.draws) && PositiveCaps(s.windows) && Aligned(s, t)
    ensures Energy(AfterBudgets(s, policy).form, x) == Energy(AfterBudgets(t, policy).form, x)
  {
    SortedDrawsPositive(s);
    EconomySame(s, t, x);
    PrecedenceSame(s, t, policy.precedence, x);
    StepsDecompose(s, policy, x);
    StepsDecompose(t, policy, x);
    var n := BeforeSame(s, t, policy);
    hide EconomicEnergy, PrecedenceEnergy, StateBeforeBudgets, SortBy, NameVariables, AfterBudgets, SameFrom;
    BudgetsIgnoreForm(StateBeforeBudgets(s, policy), StateBeforeBudgets(t, policy), n, VariablesOf(s), SortedDraws(s),
                      s.windows, policy, x);
  }

  lemma AssembledSame(s: FrozenScenario, t: FrozenScenario, policy: PenaltyPolicy)
    requires PositiveAmounts(s.draws) && PositiveAmounts(t.draws) && PositiveCaps(s.windows) && Aligned(s, t)
    ensures Assemble(AfterBudgets(s, policy).form) == Assemble(AfterBudgets(t, policy).form)
  {
    hide Energy, AfterBudgets;
    FinalFormWellFormed(s, policy);
    FinalFormWellFormed(t, policy);
    AfterSame(s, t, policy);
    var f, g := AfterBudgets(s, policy).form, AfterBudgets(t, policy).form;
    FormsHaveSameEnergy(s, t, policy, []);
    forall x ensures Energy(f, x) == Energy(g, x) {
      FormsHaveSameEnergy(s, t, policy, x);
    }
    EnergyDeterminesMatrix(f, g);
  }

  lemma AfterSame(s: FrozenScenario, t: FrozenScenario, policy: PenaltyPolicy)
    requires PositiveAmounts(s.draws) && PositiveAmounts(t.draws) && PositiveCaps(s.windows) && Aligned(s, t)
    ensures SameFrom(AfterBudgets(s, policy), AfterBudgets(t, policy), |StateBeforeBudgets(s, policy).constraints|)
    ensures StateBeforeBudgets(s, policy).constraints <= AfterBudgets(s, policy).constraints
    ensures StateBeforeBudgets(t, policy).constraints <= AfterBudgets(t, policy).constraints
  {
    SortedDrawsPositive(s);
    var n := BeforeSame(s, t, policy);
    hide StateBeforeBudgets, SortBy, NameVariables, SameFrom;
    BudgetsIgnoreForm(StateBeforeBudgets(s, policy), StateBeforeBudgets(t, policy), n, VariablesOf(s), SortedDraws(s),
                      s.windows, policy, []);
    var m := BeforeSame(t, t, policy);
    BudgetsIgnoreForm(StateBeforeBudgets(t, policy), StateBeforeBudgets(t, policy), m, VariablesOf(s), SortedDraws(s),
                      s.windows, policy, []);
  }

  lemma FloorSame(s: FrozenScenario, t: FrozenScenario, policy: PenaltyPolicy, delta: int)
    requires PositiveAmounts(s.draws) && PositiveAmounts(t.draws) && PositiveCaps(s.windows) && Aligned(s, t)
    ensures FloorRefusals(AfterBudgets(s, policy).constraints, delta) == FloorRefusals(AfterBudgets(t, policy).constraints, delta)
    ensures multiset(AfterBudgets(s, policy).constraints) == multiset(AfterBudgets(t, policy).constraints)
  {
    AfterSame(s, t, policy);
    var n := BeforeSame(s, t, policy);
    var p, q := StateBeforeBudgets(s, policy).constraints, StateBeforeBudgets(t, policy).constraints;
    var a, b := AfterBudgets(s, policy).constraints, AfterBudgets(t, policy).constraints;
    hide StateBeforeBudgets, AfterBudgets, AlikeAt, Aligned;
    SameTail(p, q, a, b);
    FloorLooksAtKinds(a, b, delta);
  }

  lemma SameTail(p: seq<Constraint>, q: seq<Constraint>, a: seq<Constraint>, b: seq<Constraint>)
    requires |p| == |q| && multiset(p) == multiset(q) && forall i :: 0 <= i < |p| ==> AlikeAt(p, q, i)
    requires p <= a && q <= b && |a| == |b| && a[|p|..] == b[|p|..]
    ensures multiset(a) == multiset(b) && forall i :: 0 <= i < |a| ==> AlikeAt(a, b, i)
  {
    assert a == p + a[|p|..] && b == q + a[|p|..];
    forall i | 0 <= i < |a| ensures AlikeAt(a, b, i) {
      if i < |p| { assert AlikeAt(p, q, i); } else { assert a[i] == a[|p|..][i - |p|] == b[i]; }
    }
  }

  /** Equal results, but for the order in which an artifact lists its constraints. */
  ghost predicate SameButConstraintOrder(a: CompileResult, b: CompileResult) {
    if a.Compiled? && b.Compiled? then
      && a.artifact == b.artifact.(constraints := a.artifact.constraints)
      && multiset(a.artifact.constraints) == multiset(b.artifact.constraints)
    else a == b
  }

  function Stamps(delta: int, c: Constraint): Constraint -> int {
    (d: Constraint) => if d.(deltaEMax := delta) == c then 1 else 0
  }

  lemma {:induction false} StampedCounted(cs: seq<Constraint>, delta: int, c: Constraint)
    ensures multiset(StampDelta(cs, delta))[c] == SumOver(cs, Stamps(delta, c))
  {
    if cs != [] {
      StampedCounted(Front(cs), delta, c);
      assert StampDelta(cs, delta) == StampDelta(Front(cs), delta) + [Last(cs).(deltaEMax := delta)];
    }
  }

  lemma StampKeepsPermutation(a: seq<Constraint>, b: seq<Constraint>, delta: int)
    requires multiset(a) == multiset(b)
    ensures multiset(StampDelta(a, delta)) == multiset(StampDelta(b, delta))
  {
    var p, q := StampDelta(a, delta), StampDelta(b, delta);
    forall c ensures multiset(p)[c] == multiset(q)[c] {
      StampedCounted(a, delta, c);
      StampedCounted(b, delta, c);
      SumOverPermuted(a, b, Stamps(delta, c));
    }
  }

  lemma FinishSame(s: FrozenScenario, t: FrozenScenario, policy: PenaltyPolicy, pruned: seq<Pruned>, delta: int)
    requires PositiveAmounts(s.draws) && PositiveAmounts(t.draws) && PositiveCaps(s.windows) && Aligned(s, t)
    ensures SameButConstraintOrder(Finish(s, AfterBudgets(s, policy), pruned, delta), Finish(t, AfterBudgets(t, policy), pruned, delta))
  {
    AfterSame(s, t, policy);
    AssembledSame(s, t, policy);
    FloorSame(s, t, policy, delta);
    StampKeepsPermutation(AfterBudgets(s, policy).constraints, AfterBudgets(t, policy).constraints, delta);
    AssembledPlaces(AfterBudgets(s, policy).form);
    AssembledPlaces(AfterBudgets(t, policy).form);
    hide AfterBudgets, StateBeforeBudgets, FloorRefusals, Assemble, IsingOf, InExactRange, StampDelta;
  }

  lemma ReorderedSymmetric(s: FrozenScenario, t: FrozenScenario)
    requires Reordered(s, t)
    ensures Reordered(t, s)
  {
  }

  /**
   * However a scenario's lists are reordered, the gate's verdict is the same, and
   * past the gate the result is: the artifacts differ at most in the order of
   * their constraints.
   */
  lemma CompileIgnoresOrder(s: FrozenScenario, t: FrozenScenario, policy: PenaltyPolicy)
    requires Reordered(s, t)
    ensures ValidScenario(s, policy) <==> ValidScenario(t, policy)
    ensures Compile(s, policy).Compiled? <==> Compile(t, policy).Compiled?
    ensures ValidPolicy(policy) && ValidScenario(s, policy) ==> SameButConstraintOrder(Compile(s, policy), Compile(t, policy))
  {
    ReorderedSymmetric(s, t);
    if ValidScenario(s, policy) { ReorderedIsValid(s, t, policy); }
    if ValidScenario(t, policy) { ReorderedIsValid(t, s, policy); }
    GatePassesExactlyValid(s, policy);
    GatePassesExactlyValid(t, policy);
    hide PolicyRefusals, ScenarioRefusals, ValidPolicy;
    if ValidPolicy(policy) && ValidScenario(s, policy) {
      ValidIsPositive(s, policy);
      ValidIsPositive(t, policy);
      SortedSame(s, t);
      hide ValidScenario, SortBy, Finish, AfterBudgets, DeltaOf, NameVariables;
      EconomySame(s, t, []);
      FinishSame(s, t, policy, NameVariables(SortedDraws(s), s.windows).pruned, DeltaOf(s));
    }
  }

  // ---------------------------------------------------------------------------
  // When the order of the constraints is fixed as well
  // ---------------------------------------------------------------------------

  /** Windows `a` and `b` have a bit for each side of the pair and `b` is not before `a`. */
  predicate ForbidsAt(v: Variables, pr: Precedence, ws: seq<Window>, a: nat, b: nat) {
    a <= b < |ws| && HasX(v, pr.after, ws[a].id) && HasX(v, pr.before, ws[b].id)
  }

  ghost predicate Forbids(v: Variables, pr: Precedence, ws: seq<Window>) {
    exists a: nat, b: nat :: ForbidsAt(v, pr, ws, a, b)
  }

  lemma {:induction false} WithBits(v: Variables, pr: Precedence, ws: seq<Window>, a: nat, k: nat, P: int)
    requires a < |ws| && k <= |ws| && HasX(v, pr.after, ws[a].id)
    ensures StepBits(ForbiddenWith(v, pr, ws, a, k, P)) != {} <==> exists b: nat :: b < k && ForbidsAt(v, pr, ws, a, b)
  {
    if k > 0 {
      WithBits(v, pr, ws, a, k - 1, P);
      var rest := ForbiddenWith(v, pr, ws, a, k - 1, P);
      if ForbidsAt(v, pr, ws, a, k - 1) {
        var step := Pair(XBit(v, pr.after, ws[a].id), XBit(v, pr.before, ws[k - 1].id), P);
        StepsWeightConcat(rest, [step]);
        assert Front([step]) == [];
        assert step.p in StepBits([step]);
      } else {
        assert ForbiddenWith(v, pr, ws, a, k, P) == rest;
      }
    }
  }

  lemma {:induction false} ForbiddenBits(v: Variables, pr: Precedence, ws: seq<Window>, A: nat, P: int)
    requires A <= |ws|
    ensures StepBits(ForbiddenSteps(v, pr, ws, A, P)) != {} <==> exists a: nat, b: nat :: a < A && ForbidsAt(v, pr, ws, a, b)
  {
    if A > 0 {
      ForbiddenBits(v, pr, ws, A - 1, P);
      var rest := ForbiddenSteps(v, pr, ws, A - 1, P);
      if HasX(v, pr.after, ws[A - 1].id) {
        WithBits(v, pr, ws, A - 1, |ws|, P);
        StepsWeightConcat(rest, ForbiddenWith(v, pr, ws, A - 1, |ws|, P));
      } else {
        assert ForbiddenSteps(v, pr, ws, A, P) == rest;
      }
    }
  }

  lemma BitesExactly(v: Variables, pr: Precedence, ws: seq<Window>, P: int)
    ensures Bites(v, pr, ws, P) <==> Forbids(v, pr, ws)
  {
    ForbiddenBits(v, pr, ws, |ws|, P);
  }

  /** No two different pairs that forbid anything are sorted under one key. */
  ghost predicate OrderUnambiguous(s: FrozenScenario) {
    forall p, q | p in s.precedence && q in s.precedence && PrecedenceKey(p) == PrecedenceKey(q) ::
      Forbids(VariablesOf(s), p, s.windows) && Forbids(VariablesOf(s), q, s.windows) ==> p == q
  }

  function Biting(v: Variables, ps: seq<Precedence>, ws: seq<Window>, P: int): seq<Precedence> {
    if ps == [] then [] else Biting(v, Front(ps), ws, P) + if Bites(v, Last(ps), ws, P) then [Last(ps)] else []
  }

  lemma BitesAddsOne(v: Variables, ps: seq<Precedence>, p: Precedence, ws: seq<Window>, P: int)
    ensures PrecedenceConstraints(v, ps + [p], ws, P)
         == PrecedenceConstraints(v, ps, ws, P) + if Bites(v, p, ws, P) then [ConstraintOf(v, p, ws, P)] else []
  {
    assert Front(ps + [p]) == ps;
  }

  lemma {:induction false} BitingConstraints(v: Variables, ps: seq<Precedence>, ws: seq<Window>, P: int)
    ensures PrecedenceConstraints(v, Biting(v, ps, ws, P), ws, P) == PrecedenceConstraints(v, ps, ws, P)
  {
    if ps == [] {
    } else {
      hide Bites, ConstraintOf, PrecedenceConstraints;
      var rest, p := Biting(v, Front(ps), ws, P), Last(ps);
      BitingConstraints(v, Front(ps), ws, P);
      BitesAddsOne(v, Front(ps), p, ws, P);
      assert ps == Front(ps) + [p];
      if Bites(v, p, ws, P) {
        BitesAddsOne(v, rest, p, ws, P);
        assert Biting(v, ps, ws, P) == rest + [p];
      } else {
        assert Biting(v, ps, ws, P) == rest;
      }
    }
  }

  lemma {:induction false} BitingCounts(v: Variables, ps: seq<Precedence>, ws: seq<Window>, P: int, p: Precedence)
    ensures multiset(Biting(v, ps, ws, P))[p] == if Bites(v, p, ws, P) then multiset(ps)[p] else 0
  {
    hide Bites;
    if ps != [] {
      BitingCounts(v, Front(ps), ws, P, p);
      assert ps == Front(ps) + [Last(ps)];
    }
  }

  lemma BitingIn(v: Variables, ps: seq<Precedence>, ws: seq<Window>, P: int, i: nat)
    requires i < |Biting(v, ps, ws, P)|
    ensures Biting(v, ps, ws, P)[i] in ps
  {
    var p := Biting(v, ps, ws, P)[i];
    BitingCounts(v, ps, ws, P, p);
    hide Biting, Bites;
    assert p in multiset(Biting(v, ps, ws, P));
    assert p in multiset(ps);
  }

  lemma {:induction false} BitingSorted(v: Variables, ps: seq<Precedence>, ws: seq<Window>, P: int)
    requires SortedBy(ps, PrecedenceKey)
    ensures SortedBy(Biting(v, ps, ws, P), PrecedenceKey)
  {
    hide Bites, PrecedenceKey;
    if ps != [] {
      var front, rest := Front(ps), Biting(v, Front(ps), ws, P);
      BitingSorted(v, front, ws, P);
      forall i | 0 <= i < |rest| ensures !StringLess(PrecedenceKey(Last(ps)), PrecedenceKey(rest[i])) {
        BitingIn(v, front, ws, P, i);
        var k :| 0 <= k < |front| && front[k] == rest[i];
        assert ps[k] == rest[i] && ps[|ps| - 1] == Last(ps);
      }
    }
  }

  lemma BitingPermuted(v: Variables, a: seq<Precedence>, b: seq<Precedence>, ws: seq<Window>, P: int)
    requires multiset(a) == multiset(b)
    ensures multiset(Biting(v, a, ws, P)) == multiset(Biting(v, b, ws, P))
  {
    var c, d := multiset(Biting(v, a, ws, P)), multiset(Biting(v, b, ws, P));
    forall p ensures c[p] == d[p] {
      BitingCounts(v, a, ws, P, p);
      BitingCounts(v, b, ws, P, p);
    }
  }

  lemma BitingIsListed(s: FrozenScenario, P: int, p: Precedence)
    requires p in Biting(VariablesOf(s), SortedPrecedence(s), s.windows, P)
    ensures p in s.precedence && Forbids(VariablesOf(s), p, s.windows)
  {
    var v, ws, a := VariablesOf(s), s.windows, SortedPrecedence(s);
    BitingCounts(v, a, ws, P, p);
    BitesExactly(v, p, ws, P);
    SortBySorts(s.precedence, PrecedenceKey);
    hide Bites, Biting, SortBy, Forbids;
    assert p in multiset(Biting(v, a, ws, P));
    assert p in multiset(s.precedence);
  }

  lemma BitingDetermined(s: FrozenScenario, P: int)
    requires OrderUnambiguous(s)
    ensures KeyDetermines(Biting(VariablesOf(s), SortedPrecedence(s), s.windows, P), PrecedenceKey)
  {
    var c := Biting(VariablesOf(s), SortedPrecedence(s), s.windows, P);
    hide Biting, PrecedenceKey, SortBy, Forbids;
    forall i, j | 0 <= i < |c| && 0 <= j < |c| && PrecedenceKey(c[i]) == PrecedenceKey(c[j]) ensures c[i] == c[j] {
      BitingIsListed(s, P, c[i]);
      BitingIsListed(s, P, c[j]);
    }
  }

  lemma UnambiguousSame(s: FrozenScenario, t: FrozenScenario, P: int)
    requires Aligned(s, t) && OrderUnambiguous(s)
    ensures var v := VariablesOf(s);
            PrecedenceConstraints(v, SortedPrecedence(s), s.windows, P) == PrecedenceConstraints(v, SortedPrecedence(t), s.windows, P)
  {
    var v, ws, a, b := VariablesOf(s), s.windows, SortedPrecedence(s), SortedPrecedence(t);
    SortBySorts(s.precedence, PrecedenceKey);
    SortBySorts(t.precedence, PrecedenceKey);
    BitingConstraints(v, a, ws, P);
    BitingConstraints(v, b, ws, P);
    BitingSorted(v, a, ws, P);
    BitingSorted(v, b, ws, P);
    BitingPermuted(v, a, b, ws, P);
    BitingDetermined(s, P);
    hide SortedBy, Biting, PrecedenceConstraints, PrecedenceKey, SortBy, KeyDetermines;
    SortedIsUnique(Biting(v, a, ws, P), Biting(v, b, ws, P), PrecedenceKey);
  }

  lemma {:induction false} SortSorted<T>(s: seq<T>, key: T -> string)
    requires SortedBy(s, key)
    ensures SortBy(s, key) == s
  {
    if s != [] {
      TailSorted(s, key);
      SortSorted(s[1..], key);
      assert |s| > 1 ==> s[1..][0] == s[1];
    }
  }

  function Swapped<T>(r: seq<T>, a: nat, b: nat): seq<T>
    requires a < b < |r|
  {
    r[a := r[b]][b := r[a]]
  }

  lemma SwappedPermutes<T>(r: seq<T>, a: nat, b: nat)
    requires a < b < |r|
    ensures multiset(Swapped(r, a, b)) == multiset(r)
  {
  }

  /** The constraint of a pair that forbids something sits behind those of the pairs before it. */
  lemma {:induction false} ConstraintPosition(v: Variables, ps: seq<Precedence>, a: nat, ws: seq<Window>, P: int)
    requires a < |ps| && Bites(v, ps[a], ws, P)
    ensures |PrecedenceConstraints(v, ps[..a], ws, P)| < |PrecedenceConstraints(v, ps, ws, P)|
    ensures PrecedenceConstraints(v, ps, ws, P)[|PrecedenceConstraints(v, ps[..a], ws, P)|] == ConstraintOf(v, ps[a], ws, P)
  {
    hide Bites, ConstraintOf;
    assert ps == Front(ps) + [Last(ps)];
    BitesAddsOne(v, Front(ps), Last(ps), ws, P);
    if a < |ps| - 1 {
      assert Front(ps)[..a] == ps[..a];
      ConstraintPosition(v, Front(ps), a, ws, P);
    } else {
      assert Front(ps) == ps[..a];
    }
  }

  lemma SameKeySameSplit(p: Precedence, q: Precedence)
    requires PrecedenceKey(p) == PrecedenceKey(q) && |p.before| == |q.before|
    ensures p == q
  {
    var k, l, m := PrecedenceKey(p), PrecedenceKey(q), |p.before|;
    assert p.before == k[..m] && q.before == l[..m];
    assert p.after == k[m + 1..] && q.after == l[m + 1..];
  }

  /** Pairs with one sort key have constraints with different ids. */
  lemma SameKeyOtherId(p: Precedence, q: Precedence)
    requires PrecedenceKey(p) == PrecedenceKey(q) && p != q
    ensures "prec[" + p.before + "<" + p.after + "]" != "prec[" + q.before + "<" + q.after + "]"
  {
    var m, n, k, l := |p.before|, |q.before|, PrecedenceKey(p), PrecedenceKey(q);
    var id, jd := "prec[" + p.before + "<" + p.after + "]", "prec[" + q.before + "<" + q.after + "]";
    if m == n {
      SameKeySameSplit(p, q);
    } else if m < n {
      assert id[5 + m] == '<' && jd[5 + m] == q.before[m] == l[m] && k[m] == '|';
    } else {
      assert jd[5 + n] == '<' && id[5 + n] == p.before[n] == k[n] && l[n] == '|';
    }
  }

  lemma SwapShows(v: Variables, r: seq<Precedence>, a: nat, b: nat, ws: seq<Window>, P: int)
    requires a < b < |r| && r[a] != r[b] && PrecedenceKey(r[a]) == PrecedenceKey(r[b])
    requires Bites(v, r[a], ws, P) && Bites(v, r[b], ws, P)
    ensures PrecedenceConstraints(v, r, ws, P) != PrecedenceConstraints(v, Swapped(r, a, b), ws, P)
  {
    var t := Swapped(r, a, b);
    assert t[..a] == r[..a] && t[a] == r[b];
    ConstraintPosition(v, r, a, ws, P);
    ConstraintPosition(v, t, a, ws, P);
    SameKeyOtherId(r[a], r[b]);
  }

  lemma CompiledConstraints(s: FrozenScenario, policy: PenaltyPolicy)
    requires Compile(s, policy).Compiled?
    ensures PositiveAmounts(s.draws) && PositiveCaps(s.windows)
    ensures Compile(s, policy).artifact.constraints == StampDelta(AfterBudgets(s, policy).constraints, Compile(s, policy).artifact.deltaEMax)
  {
    CompiledMeans(s, policy);
    hide PolicyRefusals, ScenarioRefusals, AfterBudgets, DeltaOf, FloorRefusals, IsingOf, InExactRange, Assemble, StampDelta;
  }

  lemma BeforeStays(s: FrozenScenario, policy: PenaltyPolicy)
    requires PositiveAmounts(s.draws) && PositiveCaps(s.windows)
    ensures StateBeforeBudgets(s, policy).constraints <= AfterBudgets(s, policy).constraints
  {
    SortedDrawsPositive(s);
    BudgetsExtend(StateBeforeBudgets(s, policy), VariablesOf(s), SortedDraws(s), s.windows, policy);
    hide Budgets, SortBy, NameVariables, BeforeBudgets;
  }

  lemma ArtifactConstraints(s: FrozenScenario, policy: PenaltyPolicy, k: nat)
    requires Compile(s, policy).Compiled? && k < |StateBeforeBudgets(s, policy).constraints|
    ensures k < |Compile(s, policy).artifact.constraints|
    ensures Compile(s, policy).artifact.constraints[k]
         == StateBeforeBudgets(s, policy).constraints[k].(deltaEMax := Compile(s, policy).artifact.deltaEMax)
  {
    hide Compile, StateBeforeBudgets, AfterBudgets;
    CompiledConstraints(s, policy);
    BeforeStays(s, policy);
  }

  lemma OtherConstraintShows(s: FrozenScenario, t: FrozenScenario, policy: PenaltyPolicy, k: nat)
    requires Compile(s, policy).Compiled? && Compile(s, policy) == Compile(t, policy)
    requires k < |StateBeforeBudgets(s, policy).constraints| && k < |StateBeforeBudgets(t, policy).constraints|
    requires StateBeforeBudgets(s, policy).constraints[k].deltaEMax == StateBeforeBudgets(t, policy).constraints[k].deltaEMax
    ensures StateBeforeBudgets(s, policy).constraints[k] == StateBeforeBudgets(t, policy).constraints[k]
  {
    hide Compile, StateBeforeBudgets;
    ArtifactConstraints(s, policy, k);
    ArtifactConstraints(t, policy, k);
  }

  lemma OtherConstraintsDiffer(s: FrozenScenario, t: FrozenScenario, policy: PenaltyPolicy)
    requires Compile(s, policy).Compiled? && Compile(s, policy) == Compile(t, policy)
    ensures var p, q := StateBeforeBudgets(s, policy).constraints, StateBeforeBudgets(t, policy).constraints;
            forall k :: 0 <= k < |p| && k < |q| && p[k].deltaEMax == q[k].deltaEMax ==> p[k] == q[k]
  {
    hide Compile, StateBeforeBudgets;
    var p, q := StateBeforeBudgets(s, policy).constraints, StateBeforeBudgets(t, policy).constraints;
    forall k | 0 <= k < |p| && k < |q| && p[k].deltaEMax == q[k].deltaEMax ensures p[k] == q[k] {
      OtherConstraintShows(s, t, policy, k);
    }
  }

  lemma SameRest(head: seq<Constraint>, a: seq<Constraint>, b: seq<Constraint>)
    requires multiset(a) == multiset(b)
    requires forall k :: 0 <= k < |head + a| && k < |head + b| && (head + a)[k].deltaEMax == (head + b)[k].deltaEMax ==>
               (head + a)[k] == (head + b)[k]
    requires forall i :: 0 <= i < |a| ==> a[i].deltaEMax == 0
    requires forall i :: 0 <= i < |b| ==> b[i].deltaEMax == 0
    ensures a == b
  {
    assert |multiset(a)| == |multiset(b)|;
    forall i | 0 <= i < |a| ensures a[i] == b[i] {
      assert (head + a)[|head| + i] == a[i] && (head + b)[|head| + i] == b[i];
    }
  }

  /** Where the two constraint lists of the precedence pairs differ, the artifacts do. */
  lemma OtherConstraintsShow(s: FrozenScenario, t: FrozenScenario, policy: PenaltyPolicy)
    requires Aligned(s, t) && Compile(s, policy).Compiled? && Compile(s, policy) == Compile(t, policy)
    ensures var v := VariablesOf(s);
            PrecedenceConstraints(v, SortedPrecedence(s), s.windows, policy.precedence)
            == PrecedenceConstraints(v, SortedPrecedence(t), s.windows, policy.precedence)
  {
    var v, ds, ws, P := VariablesOf(s), SortedDraws(s), s.windows, policy.precedence;
    BeforeFields(s, policy);
    BeforeFields(t, policy);
    ConstraintsPermuted(v, SortedPrecedence(s), SortedPrecedence(t), ws, P);
    ConstraintsUnstamped(v, SortedPrecedence(s), ws, P);
    ConstraintsUnstamped(v, SortedPrecedence(t), ws, P);
    hide Compile, StateBeforeBudgets, PrecedenceConstraints, CardinalityConstraints, SortBy, NameVariables;
    OtherConstraintsDiffer(s, t, policy);
    SameRest(CardinalityConstraints(v, ds, ws, policy.cardinality), PrecedenceConstraints(v, SortedPrecedence(s), ws, P),
             PrecedenceConstraints(v, SortedPrecedence(t), ws, P));
  }

  lemma {:induction false} ConstraintsUnstamped(v: Variables, ps: seq<Precedence>, ws: seq<Window>, P: int)
    ensures forall i :: 0 <= i < |PrecedenceConstraints(v, ps, ws, P)| ==> PrecedenceConstraints(v, ps, ws, P)[i].deltaEMax == 0
  {
    if ps != [] { ConstraintsUnstamped(v, Front(ps), ws, P); }
  }

  lemma AmbiguousPositions(s: FrozenScenario, P: int) returns (a: nat, b: nat)
    requires !OrderUnambiguous(s)
    ensures var v, r := VariablesOf(s), SortedPrecedence(s);
            a < b < |r| && r[a] != r[b] && PrecedenceKey(r[a]) == PrecedenceKey(r[b])
            && Bites(v, r[a], s.windows, P) && Bites(v, r[b], s.windows, P)
  {
    var v, ws, r := VariablesOf(s), s.windows, SortedPrecedence(s);
    hide Forbids, NameVariables, PrecedenceKey, SortBy, Bites;
    var p, q :| p in s.precedence && q in s.precedence && PrecedenceKey(p) == PrecedenceKey(q)
                && Forbids(v, p, ws) && Forbids(v, q, ws) && p != q;
    SortKeepsElements(s.precedence, PrecedenceKey);
    BitesExactly(v, p, ws, P);
    BitesExactly(v, q, ws, P);
    var i :| 0 <= i < |r| && r[i] == p;
    var j :| 0 <= j < |r| && r[j] == q;
    a, b := if i < j then i else j, if i < j then j else i;
  }

  /** Two pairs that share a key can be listed the other way round. */
  lemma AmbiguousReordered(s: FrozenScenario, P: int) returns (t: FrozenScenario)
    requires UniqueDraws(s.draws) && !OrderUnambiguous(s)
    ensures Reordered(s, t) && Aligned(s, t)
    ensures var v := VariablesOf(s);
            PrecedenceConstraints(v, SortedPrecedence(s), s.windows, P) != PrecedenceConstraints(v, SortedPrecedence(t), s.windows, P)
  {
    var a, b := AmbiguousPositions(s, P);
    var r := SortedPrecedence(s);
    hide PrecedenceConstraints, NameVariables, PrecedenceKey, OrderUnambiguous;
    SortBySorts(s.precedence, PrecedenceKey);
    SwapShows(VariablesOf(s), r, a, b, s.windows, P);
    SwappedPermutes(r, a, b);
    SwappedSorted(r, a, b);
    SortSorted(Swapped(r, a, b), PrecedenceKey);
    t := s.(precedence := Swapped(r, a, b));
    SortedSame(s, t);
  }

  lemma SwappedSorted(r: seq<Precedence>, a: nat, b: nat)
    requires a < b < |r| && SortedBy(r, PrecedenceKey) && PrecedenceKey(r[a]) == PrecedenceKey(r[b])
    ensures SortedBy(Swapped(r, a, b), PrecedenceKey)
  {
    hide PrecedenceKey;
    var t := Swapped(r, a, b);
    assert forall i :: 0 <= i < |r| ==> PrecedenceKey(t[i]) == PrecedenceKey(r[i]);
  }

  /** An artifact is the same for every order of its scenario exactly when no two forbidding pairs share a key. */
  lemma OrderFixedExactlyWhenUnambiguous(s: FrozenScenario, policy: PenaltyPolicy)
    requires Compile(s, policy).Compiled?
    ensures (forall t | Reordered(s, t) :: Compile(t, policy) == Compile(s, policy)) <==> OrderUnambiguous(s)
  {
    CompiledMeans(s, policy);
    hide Compile, OrderUnambiguous, Reordered, Aligned, ValidScenario, ValidPolicy;
    if OrderUnambiguous(s) {
      forall t | Reordered(s, t) ensures Compile(t, policy) == Compile(s, policy) {
        UnambiguousCompiles(s, t, policy);
      }
    } else {
      ValidDrawsUnique(s, policy);
      var t := AmbiguousReordered(s, policy.precedence);
      if Compile(t, policy) == Compile(s, policy) { OtherConstraintsShow(s, t, policy); }
    }
  }

  lemma ValidDrawsUnique(s: FrozenScenario, policy: PenaltyPolicy)
    requires ValidScenario(s, policy)
    ensures UniqueDraws(s.draws)
  {
  }

  lemma UnambiguousConstraints(s: FrozenScenario, t: FrozenScenario, policy: PenaltyPolicy)
    requires PositiveAmounts(s.draws) && PositiveAmounts(t.draws) && PositiveCaps(s.windows) && Aligned(s, t) && OrderUnambiguous(s)
    ensures AfterBudgets(s, policy).constraints == AfterBudgets(t, policy).constraints
  {
    hide SortBy, NameVariables, StateBeforeBudgets, AfterBudgets, PrecedenceConstraints, CardinalityConstraints, OrderUnambiguous;
    UnambiguousSame(s, t, policy.precedence);
    BeforeFields(s, policy);
    BeforeFields(t, policy);
    AfterSame(s, t, policy);
    SamePieces(StateBeforeBudgets(s, policy).constraints, AfterBudgets(s, policy).constraints, AfterBudgets(t, policy).constraints);
  }

  /** In particular, a reordered scenario without such pairs compiles to the very same result. */
  lemma UnambiguousCompiles(s: FrozenScenario, t: FrozenScenario, policy: PenaltyPolicy)
    requires Reordered(s, t) && ValidPolicy(policy) && ValidScenario(s, policy) && OrderUnambiguous(s)
    ensures Compile(s, policy) == Compile(t, policy)
  {
    CompileIgnoresOrder(s, t, policy);
    hide ValidPolicy, Compile, AfterBudgets, StampDelta, OrderUnambiguous, SortBy;
    if Compile(s, policy).Compiled? {
      ValidIsPositive(s, policy);
      ValidIsPositive(t, policy);
      SortedSame(s, t);
      UnambiguousConstraints(s, t, policy);
      CompiledConstraints(s, policy);
      CompiledConstraints(t, policy);
    }
  }

  lemma SamePieces(p: seq<Constraint>, a: seq<Constraint>, b: seq<Constraint>)
    requires p <= a && p <= b && |a| == |b| && a[|p|..] == b[|p|..]
    ensures a == b
  {
    assert a == p + a[|p|..] && b == p + b[|p|..];
  }
}
