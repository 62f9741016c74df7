/**
 * Energy decomposition: for every bitstring, feasible or not, the accumulated
 * form is worth the economic terms plus one penalty term per constraint.
 */
module Decomposition {
  import opened Sums
  import opened QuadraticForm
  import opened Slack
  import opened Scenario
  import opened CompilerSpec

  /** Every bit the lookups return has been created. */
  ghost predicate BitsBelow(v: Variables, n: nat) {
    && (forall k :: k in v.xBit ==> v.xBit[k] < n)
    && (forall k :: k in v.zBit ==> v.zBit[k] < n)
  }

  lemma {:induction false} NameXsBelow(v: Variables, d: Draw, ws: seq<Window>)
    requires BitsBelow(v, |v.symbols|)
    ensures |v.symbols| <= |NameXs(v, d, ws).symbols|
    ensures BitsBelow(NameXs(v, d, ws), |NameXs(v, d, ws).symbols|)
  {
    if ws != [] { NameXsBelow(v, d, Front(ws)); }
  }

  lemma {:induction false} NamedBitsBelow(draws: seq<Draw>, ws: seq<Window>)
    ensures var v := NameVariables(draws, ws); BitsBelow(v, |v.symbols|)
  {
    if draws != [] {
      NamedBitsBelow(Front(draws), ws);
      NameXsBelow(NameVariables(Front(draws), ws), Last(draws), ws);
    }
  }

  lemma {:induction false} DrawBitsBelow(v: Variables, d: Draw, ws: seq<Window>, n: nat)
    requires BitsBelow(v, n) && d.id in v.zBit
    ensures forall i :: 0 <= i < |WindowBits(v, d, ws)| ==> WindowBits(v, d, ws)[i] < n
    ensures TermsWithin(UnitTerms(DrawBits(v, d, ws)), n)
  {
    if ws != [] { DrawBitsBelow(v, d, Front(ws), n); }
  }

  lemma {:induction false} MembersBelow(v: Variables, draws: seq<Draw>, window: string, n: nat)
    requires BitsBelow(v, n)
    ensures forall i :: 0 <= i < |Members(v, draws, window)| ==> Members(v, draws, window)[i].bit < n
  {
    if draws != [] { MembersBelow(v, Front(draws), window, n); }
  }

  lemma {:induction false} SlackTermsBelow(from: nat, k: nat)
    ensures TermsWithin(SlackTerms(from, k), from + k)
  {
    if k > 0 { SlackTermsBelow(from, k - 1); }
  }

  lemma WithinConcat(a: seq<Step>, b: seq<Step>, n: nat)
    ensures Within(a + b, n) <==> Within(a, n) && Within(b, n)
  {
    if Within(a + b, n) {
      forall i | 0 <= i < |a| ensures StepWithin(a[i], n) { assert (a + b)[i] == a[i]; }
      forall i | 0 <= i < |b| ensures StepWithin(b[i], n) { assert (a + b)[|a| + i] == b[i]; }
    }
  }

  lemma {:induction false} PlacementWithin(v: Variables, d: Draw, ws: seq<Window>, n: nat)
    requires BitsBelow(v, n)
    ensures Within(PlacementSteps(v, d, ws), n)
  {
    if ws != [] { PlacementWithin(v, d, Front(ws), n); }
  }

  lemma {:induction false} ObjectiveWithin(v: Variables, draws: seq<Draw>, ws: seq<Window>, n: nat)
    requires BitsBelow(v, n) && Named(v, draws)
    ensures Within(ObjectiveSteps(v, draws, ws), n)
  {
    if draws != [] {
      ObjectiveWithin(v, Front(draws), ws, n);
      PlacementWithin(v, Last(draws), ws, n);
      WithinConcat(ObjectiveSteps(v, Front(draws), ws), DrawSteps(v, Last(draws), ws), n);
    }
  }

  lemma {:induction false} CrowdingWithin(v: Variables, c: Concentration, ws: seq<Window>, n: nat)
    requires BitsBelow(v, n)
    ensures Within(CrowdingSteps(v, c, ws), n)
  {
    if ws != [] { CrowdingWithin(v, c, Front(ws), n); }
  }

  lemma {:induction false} ConcentrationWithin(v: Variables, cs: seq<Concentration>, ws: seq<Window>, n: nat)
    requires BitsBelow(v, n)
    ensures Within(ConcentrationSteps(v, cs, ws), n)
  {
    if cs != [] {
      ConcentrationWithin(v, Front(cs), ws, n);
      CrowdingWithin(v, Last(cs), ws, n);
      WithinConcat(ConcentrationSteps(v, Front(cs), ws), CrowdingSteps(v, Last(cs), ws), n);
      assert ConcentrationSteps(v, Front(cs), ws) + [] == ConcentrationSteps(v, Front(cs), ws);
    }
  }

  lemma {:induction false} CardinalityWithin(v: Variables, draws: seq<Draw>, ws: seq<Window>, P: int, n: nat)
    requires BitsBelow(v, n) && Named(v, draws)
    ensures Within(CardinalitySteps(v, draws, ws, P), n)
  {
    if draws != [] {
      CardinalityWithin(v, Front(draws), ws, P, n);
      DrawBitsBelow(v, Last(draws), ws, n);
      var terms := UnitTerms(DrawBits(v, Last(draws), ws));
      SquareStepsWithin(terms, 1, P, n);
      WithinConcat(CardinalitySteps(v, Front(draws), ws, P), SquareSteps(terms, 1, P), n);
    }
  }

  lemma {:induction false} ForbiddenWithWithin(v: Variables, pr: Precedence, ws: seq<Window>, a: nat, k: nat, P: int, n: nat)
    requires BitsBelow(v, n) && a < |ws| && k <= |ws| && HasX(v, pr.after, ws[a].id)
    ensures Within(ForbiddenWith(v, pr, ws, a, k, P), n)
  {
    if k > 0 { ForbiddenWithWithin(v, pr, ws, a, k - 1, P, n); }
  }

  lemma {:induction false} ForbiddenWithin(v: Variables, pr: Precedence, ws: seq<Window>, a: nat, P: int, n: nat)
    requires BitsBelow(v, n) && a <= |ws|
    ensures Within(ForbiddenSteps(v, pr, ws, a, P), n)
  {
    if a > 0 {
      ForbiddenWithin(v, pr, ws, a - 1, P, n);
      if HasX(v, pr.after, ws[a - 1].id) {
        ForbiddenWithWithin(v, pr, ws, a - 1, |ws|, P, n);
      }
    }
  }

  lemma {:induction false} PrecedenceWithin(v: Variables, ps: seq<Precedence>, ws: seq<Window>, P: int, n: nat)
    requires BitsBelow(v, n)
    ensures Within(PrecedenceSteps(v, ps, ws, P), n)
  {
    if ps != [] {
      PrecedenceWithin(v, Front(ps), ws, P, n);
      ForbiddenWithin(v, Last(ps), ws, |ws|, P, n);
      WithinConcat(PrecedenceSteps(v, Front(ps), ws, P), ForbiddenSteps(v, Last(ps), ws, |ws|, P), n);
    }
  }

  predicate MembersWithin(ms: seq<Member>, n: nat) {
    forall i :: 0 <= i < |ms| ==> ms[i].bit < n
  }

  lemma {:induction false} OverCapRowWithin(m: Member, ms: seq<Member>, cap: int, P: int, n: nat)
    requires m.bit < n && MembersWithin(ms, n)
    ensures Within(OverCapRow(m, ms, cap, P), n)
  {
    if ms != [] { OverCapRowWithin(m, Front(ms), cap, P, n); }
  }

  lemma {:induction false} OverCapPairsWithin(ms: seq<Member>, k: nat, cap: int, P: int, n: nat)
    requires k <= |ms| && MembersWithin(ms, n)
    ensures Within(OverCapPairs(ms, k, cap, P), n)
  {
    if k > 0 {
      OverCapPairsWithin(ms, k - 1, cap, P, n);
      OverCapRowWithin(ms[k - 1], ms[k..], cap, P, n);
      WithinConcat(OverCapPairs(ms, k - 1, cap, P), OverCapRow(ms[k - 1], ms[k..], cap, P), n);
    }
  }

  // ---------------------------------------------------------------------------
  // The budget term of one window
  // ---------------------------------------------------------------------------

  /** What window `w` adds to the energy when its slack bits, if any, start at bit `from`. */
  function WindowEnergy(ms: seq<Member>, w: Window, from: nat, policy: PenaltyPolicy, x: Bits): int
    requires PositiveMembers(ms) && w.liquidityCapMinor > 0
  {
    var cap := w.liquidityCapMinor;
    match EncodingOf(ms, cap)
    case NoBudget => 0
    case PairPruned => StepsEnergy(OverCapPairs(ms, |ms|, cap, policy.budget), x)
    case SlackEncoded =>
      if SlackWidth(NatAmounts(ms), cap) > policy.maxSlackBits then 0
      else
        UnitDivides(NatAmounts(ms), cap);
        policy.budget * Square(Load(BudgetTerms(ms, cap, from), x) - cap / Unit(NatAmounts(ms), cap))
  }

  function BudgetsEnergy(st: BudgetState, v: Variables, draws: seq<Draw>, ws: seq<Window>, policy: PenaltyPolicy, x: Bits): int
    requires PositiveAmounts(draws) && PositiveCaps(ws)
  {
    if ws == [] then 0
    else
      MembersPositive(v, draws, Last(ws).id);
      BudgetsEnergy(st, v, draws, Front(ws), policy, x)
      + WindowEnergy(Members(v, draws, Last(ws).id), Last(ws), |Budgets(st, v, draws, Front(ws), policy).symbols|, policy, x)
  }

  ghost predicate StateOk(st: BudgetState) {
    WellFormed(st.form) && |st.form.diag| == |st.symbols|
  }

  lemma BudgetStepEnergy(st: BudgetState, ms: seq<Member>, w: Window, policy: PenaltyPolicy, x: Bits)
    requires PositiveMembers(ms) && w.liquidityCapMinor > 0
    requires StateOk(st) && MembersWithin(ms, |st.symbols|)
    ensures var r := BudgetStep(st, ms, w, policy);
            StateOk(r) && |r.symbols| >= |st.symbols| &&
            Energy(r.form, x) == Energy(st.form, x) + WindowEnergy(ms, w, |st.symbols|, policy, x)
  {
    var cap := w.liquidityCapMinor;
    match EncodingOf(ms, cap)
    case NoBudget =>
    case PairPruned =>
      OverCapPairsWithin(ms, |ms|, cap, policy.budget, |st.symbols|);
      StepsRaiseEnergy(st.form, OverCapPairs(ms, |ms|, cap, policy.budget), x);
    case SlackEncoded =>
      var width := SlackWidth(NatAmounts(ms), cap);
      if width <= policy.maxSlackBits {
        UnitDivides(NatAmounts(ms), cap);
        var terms, units := BudgetTerms(ms, cap, |st.symbols|), cap / Unit(NatAmounts(ms), cap);
        GrowKeepsEnergy(st.form, width, x);
        SlackTermsBelow(|st.symbols|, width);
        var grown := Grow(st.form, width);
        SquareStepsWithin(terms, units, policy.budget, |grown.diag|);
        StepsRaiseEnergy(grown, SquareSteps(terms, units, policy.budget), x);
        SquareStepsEnergy(terms, units, policy.budget, x);
      }
  }

  lemma {:induction false} BudgetsRaiseEnergy(st: BudgetState, v: Variables, draws: seq<Draw>, ws: seq<Window>,
                                             policy: PenaltyPolicy, x: Bits)
    requires PositiveAmounts(draws) && PositiveCaps(ws)
    requires StateOk(st) && BitsBelow(v, |st.symbols|)
    ensures var r := Budgets(st, v, draws, ws, policy);
            StateOk(r) && |r.symbols| >= |st.symbols| &&
            Energy(r.form, x) == Energy(st.form, x) + BudgetsEnergy(st, v, draws, ws, policy, x)
  {
    if ws != [] {
      BudgetsRaiseEnergy(st, v, draws, Front(ws), policy, x);
      var before := Budgets(st, v, draws, Front(ws), policy);
      MembersPositive(v, draws, Last(ws).id);
      MembersBelow(v, draws, Last(ws).id, |before.symbols|);
      BudgetStepEnergy(before, Members(v, draws, Last(ws).id), Last(ws), policy, x);
    }
  }

  // ---------------------------------------------------------------------------
  // The whole form
  // ---------------------------------------------------------------------------

  lemma EmptyEnergy(n: nat, x: Bits)
    ensures WellFormed(EmptyForm(n)) && Energy(EmptyForm(n), x) == 0
  {
    GrowKeepsEnergy(Form([], map[], 0), n, x);
  }

  function EconomicEnergy(s: FrozenScenario, x: Bits): int {
    EveryDrawNamed(SortedDraws(s), s.windows);
    StepsEnergy(EconomicSteps(VariablesOf(s), SortedDraws(s), SortedConcentration(s), s.windows), x)
  }

  function VariablesOf(s: FrozenScenario): Variables {
    NameVariables(SortedDraws(s), s.windows)
  }

  function CardinalityEnergy(s: FrozenScenario, P: int, x: Bits): int {
    EveryDrawNamed(SortedDraws(s), s.windows);
    StepsEnergy(CardinalitySteps(VariablesOf(s), SortedDraws(s), s.windows, P), x)
  }

  function PrecedenceEnergy(s: FrozenScenario, P: int, x: Bits): int {
    StepsEnergy(PrecedenceSteps(VariablesOf(s), SortedPrecedence(s), s.windows, P), x)
  }

  function StateBeforeBudgets(s: FrozenScenario, policy: PenaltyPolicy): BudgetState {
    EveryDrawNamed(SortedDraws(s), s.windows);
    BeforeBudgets(VariablesOf(s), SortedDraws(s), s, policy)
  }

  function BudgetEnergy(s: FrozenScenario, policy: PenaltyPolicy, x: Bits): int
    requires PositiveAmounts(s.draws) && PositiveCaps(s.windows)
  {
    SortedDrawsPositive(s);
    BudgetsEnergy(StateBeforeBudgets(s, policy), VariablesOf(s), SortedDraws(s), s.windows, policy, x)
  }

  lemma BeforeBudgetsEnergy(s: FrozenScenario, policy: PenaltyPolicy, x: Bits)
    ensures StateOk(StateBeforeBudgets(s, policy))
    ensures Energy(StateBeforeBudgets(s, policy).form, x)
         == EconomicEnergy(s, x) + CardinalityEnergy(s, policy.cardinality, x) + PrecedenceEnergy(s, policy.precedence, x)
  {
    var draws, ws, v := SortedDraws(s), s.windows, VariablesOf(s);
    var n := |v.symbols|;
    EveryDrawNamed(draws, ws);
    NamedBitsBelow(draws, ws);
    EmptyEnergy(n, x);
    ObjectiveWithin(v, draws, ws, n);
    ConcentrationWithin(v, SortedConcentration(s), ws, n);
    WithinConcat(ObjectiveSteps(v, draws, ws), ConcentrationSteps(v, SortedConcentration(s), ws), n);
    CardinalityWithin(v, draws, ws, policy.cardinality, n);
    PrecedenceWithin(v, SortedPrecedence(s), ws, policy.precedence, n);
    var economic := EconomicSteps(v, draws, SortedConcentration(s), ws);
    var cardinality := CardinalitySteps(v, draws, ws, policy.cardinality);
    StepsRaiseEnergy(EmptyForm(n), economic, x);
    StepsRaiseEnergy(Apply(EmptyForm(n), economic), cardinality, x);
    StepsRaiseEnergy(Apply(Apply(EmptyForm(n), economic), cardinality),
                     PrecedenceSteps(v, SortedPrecedence(s), ws, policy.precedence), x);
  }

  /** For every bitstring, the accumulated form is worth its economic energy plus the three kinds of penalty. */
  lemma StepsDecompose(s: FrozenScenario, policy: PenaltyPolicy, x: Bits)
    requires PositiveAmounts(s.draws) && PositiveCaps(s.windows)
    ensures StateOk(AfterBudgets(s, policy))
    ensures Energy(AfterBudgets(s, policy).form, x)
         == EconomicEnergy(s, x) + CardinalityEnergy(s, policy.cardinality, x)
          + PrecedenceEnergy(s, policy.precedence, x) + BudgetEnergy(s, policy, x)
  {
    BeforeBudgetsEnergy(s, policy, x);
    SortedDrawsPositive(s);
    NamedBitsBelow(SortedDraws(s), s.windows);
    BudgetsRaiseEnergy(StateBeforeBudgets(s, policy), VariablesOf(s), SortedDraws(s), s.windows, policy, x);
  }

  lemma FinalFormWellFormed(s: FrozenScenario, policy: PenaltyPolicy)
    requires PositiveAmounts(s.draws) && PositiveCaps(s.windows)
    ensures StateOk(AfterBudgets(s, policy))
  {
    StepsDecompose(s, policy, []);
  }
}
