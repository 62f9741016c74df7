/**
 * The compiled form means what the scenario means: zero-penalty bitstrings are
 * feasible schedules at their cost, every other bitstring costs more than any of
 * them, and so the bitstrings of least energy are the cheapest feasible schedules.
 */
module Meaning {
  import opened Sums
  import opened Ordering
  import opened QuadraticForm
  import opened Artifact
  import opened Slack
  import opened Scenario
  import opened CompilerSpec
  import opened Decomposition
  import opened Schedules
  import opened VariableTable
  import opened EnergyTerms
  import opened PenaltyTerms
  import opened Representation

  // ---------------------------------------------------------------------------
  // Penalties against the floor
  // ---------------------------------------------------------------------------

  lemma {:induction false} FloorMeaning(cs: seq<Constraint>, deltaEMax: int)
    requires FloorRefusals(cs, deltaEMax) == []
    ensures forall c :: c in cs ==> c.penalty > deltaEMax
  {
    if cs != [] {
      FloorMeaning(Front(cs), deltaEMax);
      assert cs == Front(cs) + [Last(cs)];
    }
  }

  lemma {:induction false} StepsSwing(t: seq<Step>, x: Bits, y: Bits)
    ensures StepsEnergy(t, x) - StepsEnergy(t, y) <= StepsWeight(t)
    ensures StepsWeight(t) >= 0
  {
    if t != [] { StepsSwing(Front(t), x, y); }
  }

  lemma CardinalityChecked(v: Variables, draws: seq<Draw>, ws: seq<Window>, P: int)
    requires Named(v, draws) && draws != []
    ensures exists c :: c in CardinalityConstraints(v, draws, ws, P) && c.penalty == P
  {
    var c := CardinalityConstraint(v, Last(draws), ws, P);
    assert c in CardinalityConstraints(v, draws, ws, P) && c.penalty == P;
  }

  lemma {:induction false} ForbiddenIsPairs(v: Variables, pr: Precedence, ws: seq<Window>, A: nat, P: int)
    requires A <= |ws|
    ensures forall i :: 0 <= i < |ForbiddenSteps(v, pr, ws, A, P)| ==> ForbiddenSteps(v, pr, ws, A, P)[i].Pair?
  {
    if A > 0 {
      ForbiddenIsPairs(v, pr, ws, A - 1, P);
      if HasX(v, pr.after, ws[A - 1].id) { ForbiddenWithIsPairs(v, pr, ws, A - 1, |ws|, P); }
    }
  }

  lemma {:induction false} ForbiddenWithIsPairs(v: Variables, pr: Precedence, ws: seq<Window>, a: nat, k: nat, P: int)
    requires a < |ws| && k <= |ws| && HasX(v, pr.after, ws[a].id)
    ensures forall i :: 0 <= i < |ForbiddenWith(v, pr, ws, a, k, P)| ==> ForbiddenWith(v, pr, ws, a, k, P)[i].Pair?
  {
    if k > 0 { ForbiddenWithIsPairs(v, pr, ws, a, k - 1, P); }
  }

  lemma {:induction false} PrecedenceChecked(v: Variables, ps: seq<Precedence>, ws: seq<Window>, P: int, x: Bits)
    requires StepsEnergy(PrecedenceSteps(v, ps, ws, P), x) != 0
    ensures exists c :: c in PrecedenceConstraints(v, ps, ws, P) && c.penalty == P
  {
    if ps != [] {
      var steps := ForbiddenSteps(v, Last(ps), ws, |ws|, P);
      var front := PrecedenceConstraints(v, Front(ps), ws, P);
      StepsEnergyConcat(PrecedenceSteps(v, Front(ps), ws, P), steps, x);
      if StepsEnergy(PrecedenceSteps(v, Front(ps), ws, P), x) != 0 {
        PrecedenceChecked(v, Front(ps), ws, P, x);
        var c :| c in front && c.penalty == P;
        assert c in PrecedenceConstraints(v, ps, ws, P);
      } else {
        assert steps != [];
        ForbiddenIsPairs(v, Last(ps), ws, |ws|, P);
        assert Last(steps).p in StepBits(steps);
        var all := PrecedenceConstraints(v, ps, ws, P);
        assert Last(all) in all && Last(all).penalty == P;
      }
    }
  }

  // ---------------------------------------------------------------------------
  // The budget phase, window by window
  // ---------------------------------------------------------------------------

  lemma {:induction false} BudgetsExtend(st: BudgetState, v: Variables, draws: seq<Draw>, ws: seq<Window>, policy: PenaltyPolicy)
    requires PositiveAmounts(draws) && PositiveCaps(ws)
    ensures var r := Budgets(st, v, draws, ws, policy);
            && st.symbols <= r.symbols && st.constraints <= r.constraints && st.refusals <= r.refusals
            && (forall p :: |st.symbols| <= p < |r.symbols| ==> r.symbols[p].SlackSymbol?)
  {
    if ws != [] {
      BudgetsExtend(st, v, draws, Front(ws), policy);
      MembersPositive(v, draws, Last(ws).id);
      BudgetStepExtends(Budgets(st, v, draws, Front(ws), policy), Members(v, draws, Last(ws).id), Last(ws), policy);
    }
  }

  lemma {:induction false} SlackSymbolsAreSlack(window: string, k: nat)
    ensures forall p :: 0 <= p < k ==> SlackSymbols(window, k)[p].SlackSymbol?
  {
    if k > 0 { SlackSymbolsAreSlack(window, k - 1); }
  }

  lemma BudgetStepExtends(st: BudgetState, ms: seq<Member>, w: Window, policy: PenaltyPolicy)
    requires PositiveMembers(ms) && w.liquidityCapMinor > 0
    ensures var r := BudgetStep(st, ms, w, policy);
            && st.symbols <= r.symbols && st.constraints <= r.constraints && st.refusals <= r.refusals
            && (forall p :: |st.symbols| <= p < |r.symbols| ==> r.symbols[p].SlackSymbol?)
  {
    if EncodingOf(ms, w.liquidityCapMinor) == SlackEncoded {
      SlackSymbolsAreSlack(w.id, SlackWidth(NatAmounts(ms), w.liquidityCapMinor));
    }
  }

  /** Where the slack bits of window `j` start. */
  function SlackStart(st: BudgetState, v: Variables, draws: seq<Draw>, ws: seq<Window>, j: nat, policy: PenaltyPolicy): nat
    requires PositiveAmounts(draws) && PositiveCaps(ws) && j <= |ws|
  {
    |Budgets(st, v, draws, ws[..j], policy).symbols|
  }

  ghost predicate CapHolds(v: Variables, draws: seq<Draw>, ws: seq<Window>, j: nat, x: Bits)
    requires j < |ws|
  {
    SelectedLoad(Members(v, draws, ws[j].id), x) <= ws[j].liquidityCapMinor
  }

  ghost predicate SlackHolds(st: BudgetState, v: Variables, draws: seq<Draw>, ws: seq<Window>, j: nat, policy: PenaltyPolicy, x: Bits)
    requires PositiveAmounts(draws) && PositiveCaps(ws) && j < |ws|
  {
    MembersPositive(v, draws, ws[j].id);
    SlackFills(Members(v, draws, ws[j].id), ws[j].liquidityCapMinor, SlackStart(st, v, draws, ws, j, policy), x)
  }

  ghost predicate MembersUnderCap(v: Variables, draws: seq<Draw>, w: Window) {
    forall i :: 0 <= i < |Members(v, draws, w.id)| ==> Members(v, draws, w.id)[i].amount <= w.liquidityCapMinor
  }

  lemma ResolvedUnderCap(v: Variables, draws: seq<Draw>, ws: seq<Window>)
    requires Resolved(v, draws, ws)
    ensures forall j :: 0 <= j < |ws| ==> MembersUnderCap(v, draws, ws[j])
  {
    forall j | 0 <= j < |ws| ensures MembersUnderCap(v, draws, ws[j]) {
      assert forall i :: 0 <= i < |draws| ==> Resolves(v, draws[i], ws[j]);
      MembersFit(v, draws, ws[j]);
    }
  }

  lemma BudgetsMeaningStep(st: BudgetState, v: Variables, draws: seq<Draw>, ws: seq<Window>, j: nat,
                           policy: PenaltyPolicy, x: Bits)
    requires PositiveAmounts(draws) && PositiveCaps(ws) && j < |ws| && policy.budget > 0
    requires MembersUnderCap(v, draws, ws[j])
    requires Budgets(st, v, draws, ws[..j + 1], policy).refusals == []
    ensures Budgets(st, v, draws, ws[..j], policy).refusals == []
    ensures var e := BudgetsEnergy(st, v, draws, ws[..j + 1], policy, x) - BudgetsEnergy(st, v, draws, ws[..j], policy, x);
            PenaltyLike(e, policy.budget)
            && (e == 0 <==> CapHolds(v, draws, ws, j, x) && SlackHolds(st, v, draws, ws, j, policy, x))
  {
    assert Front(ws[..j + 1]) == ws[..j];
    var w := ws[j];
    var before := Budgets(st, v, draws, ws[..j], policy);
    var ms := Members(v, draws, w.id);
    MembersPositive(v, draws, w.id);
    BudgetStepExtends(before, ms, w, policy);
    WindowMeaning(ms, w, |before.symbols|, policy, x);
  }

  ghost predicate WindowsHold(st: BudgetState, v: Variables, draws: seq<Draw>, ws: seq<Window>, J: nat,
                              policy: PenaltyPolicy, x: Bits)
    requires PositiveAmounts(draws) && PositiveCaps(ws) && J <= |ws|
  {
    J == 0 || (WindowsHold(st, v, draws, ws, J - 1, policy, x)
               && CapHolds(v, draws, ws, J - 1, x) && SlackHolds(st, v, draws, ws, J - 1, policy, x))
  }

  lemma {:induction false} WindowsHoldEach(st: BudgetState, v: Variables, draws: seq<Draw>, ws: seq<Window>, J: nat,
                                          policy: PenaltyPolicy, x: Bits)
    requires PositiveAmounts(draws) && PositiveCaps(ws) && J <= |ws|
    ensures WindowsHold(st, v, draws, ws, J, policy, x) <==>
            (forall j :: 0 <= j < J ==> CapHolds(v, draws, ws, j, x))
            && (forall j :: 0 <= j < J ==> SlackHolds(st, v, draws, ws, j, policy, x))
  {
    hide CapHolds, SlackHolds;
    if J > 0 { WindowsHoldEach(st, v, draws, ws, J - 1, policy, x); }
  }

  /** Within the policy's slack allowance, the budget terms are zero exactly when every cap and every slack holds. */
  lemma {:induction false} BudgetsMeaning(st: BudgetState, v: Variables, draws: seq<Draw>, ws: seq<Window>, J: nat,
                                         policy: PenaltyPolicy, x: Bits)
    requires PositiveAmounts(draws) && PositiveCaps(ws) && J <= |ws| && policy.budget > 0
    requires forall j :: 0 <= j < |ws| ==> MembersUnderCap(v, draws, ws[j])
    requires Budgets(st, v, draws, ws[..J], policy).refusals == []
    ensures PenaltyLike(BudgetsEnergy(st, v, draws, ws[..J], policy, x), policy.budget)
    ensures BudgetsEnergy(st, v, draws, ws[..J], policy, x) == 0 <==> WindowsHold(st, v, draws, ws, J, policy, x)
  {
    hide CapHolds, SlackHolds, MembersUnderCap;
    if J > 0 {
      assert MembersUnderCap(v, draws, ws[J - 1]);
      BudgetsMeaningStep(st, v, draws, ws, J - 1, policy, x);
      BudgetsMeaning(st, v, draws, ws, J - 1, policy, x);
    }
  }

  /** A nonzero budget term comes with a floor-checked budget constraint. */
  lemma {:induction false} BudgetsChecked(st: BudgetState, v: Variables, draws: seq<Draw>, ws: seq<Window>,
                                         policy: PenaltyPolicy, x: Bits)
    requires PositiveAmounts(draws) && PositiveCaps(ws)
    requires BudgetsEnergy(st, v, draws, ws, policy, x) != 0
    ensures exists c :: c in Budgets(st, v, draws, ws, policy).constraints && c.penalty == policy.budget
  {
    if ws != [] {
      var w, before := Last(ws), Budgets(st, v, draws, Front(ws), policy);
      var ms := Members(v, draws, w.id);
      MembersPositive(v, draws, w.id);
      BudgetStepExtends(before, ms, w, policy);
      var all := Budgets(st, v, draws, ws, policy).constraints;
      if BudgetsEnergy(st, v, draws, Front(ws), policy, x) != 0 {
        BudgetsChecked(st, v, draws, Front(ws), policy, x);
        var c :| c in before.constraints && c.penalty == policy.budget;
        assert c in all;
      } else {
        assert Last(all) in all && Last(all).penalty == policy.budget;
      }
    }
  }

  // ---------------------------------------------------------------------------
  // What a successful compilation guarantees
  // ---------------------------------------------------------------------------

  lemma CompiledMeans(s: FrozenScenario, policy: PenaltyPolicy)
    requires Compile(s, policy).Compiled?
    ensures ValidPolicy(policy) && ValidScenario(s, policy) && PositiveAmounts(s.draws) && PositiveCaps(s.windows)
    ensures var a, st := Compile(s, policy).artifact, AfterBudgets(s, policy);
            && a.symbols == st.symbols && a.qubo == Assemble(st.form) && a.deltaEMax == DeltaOf(s)
            && st.refusals == [] && FloorRefusals(st.constraints, DeltaOf(s)) == []
  {
    hide PolicyRefusals, ScenarioRefusals, ValidScenario, ValidPolicy, AfterBudgets, DeltaOf, InExactRange, FloorRefusals, IsingOf;
    GatePassesExactlyValid(s, policy);
    ValidIsPositive(s, policy);
  }

  lemma SortedDrawsUnique(s: FrozenScenario)
    requires UniqueDraws(s.draws)
    ensures UniqueDraws(SortedDraws(s))
    ensures forall d :: d in SortedDraws(s) <==> d in s.draws
    ensures multiset(SortedDraws(s)) == multiset(s.draws)
  {
    assert DistinctKeys(s.draws, DrawKey);
    SortKeepsDistinct(s.draws, DrawKey);
    SortKeepsElements(s.draws, DrawKey);
    SortBySorts(s.draws, DrawKey);
    var ds := SortedDraws(s);
    assert forall i :: 0 <= i < |ds| ==> DrawKey(ds[i]) == ds[i].id;
  }

  lemma UniqueIndex(ds: seq<Draw>, i: nat, k: nat)
    requires UniqueDraws(ds) && i < |ds| && k < |ds| && ds[i].id == ds[k].id
    ensures i == k
  {
  }

  lemma SortedIndex(s: FrozenScenario, i: nat) returns (a: nat)
    requires UniqueDraws(s.draws) && i < |SortedDraws(s)|
    ensures a < |s.draws| && s.draws[a] == SortedDraws(s)[i]
  {
    SortedDrawsUnique(s);
    assert SortedDraws(s)[i] in s.draws;
    a :| 0 <= a < |s.draws| && s.draws[a] == SortedDraws(s)[i];
  }

  lemma SortedKeysDistinct(s: FrozenScenario)
    requires UniqueDraws(s.draws) && KeysDistinct(s.draws, s.windows)
    ensures KeysDistinct(SortedDraws(s), s.windows)
  {
    SortedDrawsUnique(s);
    hide SortedDraws, BitKey, Live;
    var ds, ws := SortedDraws(s), s.windows;
    forall i, j, k, l | 0 <= i < |ds| && 0 <= j < |ws| && 0 <= k < |ds| && 0 <= l < |ws|
                        && Live(ds[i], ws[j]) && BitKey(ds[i].id, ws[j].id) == BitKey(ds[k].id, ws[l].id)
      ensures i == k && j == l
    {
      var a := SortedIndex(s, i);
      var b := SortedIndex(s, k);
      SameKeySamePair(s.draws, ws, a, j, b, l);
      UniqueIndex(ds, i, k);
    }
  }

  lemma SortedResolved(s: FrozenScenario)
    requires UniqueDraws(s.draws) && UniqueWindows(s.windows) && KeysDistinct(s.draws, s.windows)
    ensures Resolved(VariablesOf(s), SortedDraws(s), s.windows)
  {
    SortedDrawsUnique(s);
    SortedKeysDistinct(s);
    VariablesResolve(SortedDraws(s), s.windows);
  }

  /** The matrix of every artifact has, on every bitstring, the energy in closed form. */
  lemma ArtifactDecomposes(s: FrozenScenario, policy: PenaltyPolicy, x: Bits)
    requires Compile(s, policy).Compiled?
    ensures PositiveAmounts(s.draws) && PositiveCaps(s.windows)
    ensures QuboEnergy(Compile(s, policy).artifact.qubo, x)
         == (EconomicValue(s, x)
             + policy.cardinality * SlotMisses(s, x)
             + policy.precedence * OrderMisses(s, x)
             + policy.budget * BudgetMisses(s, policy, x)) as real
  {
    CompiledMeans(s, policy);
    EnergyDecomposes(s, policy, x);
    StepsDecompose(s, policy, x);
    AssembleKeepsEnergy(AfterBudgets(s, policy).form, x);
  }

  /** All three kinds of penalty are zero. */
  ghost predicate PenaltyFree(s: FrozenScenario, policy: PenaltyPolicy, x: Bits)
    requires PositiveAmounts(s.draws) && PositiveCaps(s.windows)
  {
    && CardinalityEnergy(s, policy.cardinality, x) == 0
    && PrecedenceEnergy(s, policy.precedence, x) == 0
    && BudgetEnergy(s, policy, x) == 0
  }

  function PenaltyEnergy(s: FrozenScenario, policy: PenaltyPolicy, x: Bits): int
    requires PositiveAmounts(s.draws) && PositiveCaps(s.windows)
  {
    CardinalityEnergy(s, policy.cardinality, x) + PrecedenceEnergy(s, policy.precedence, x) + BudgetEnergy(s, policy, x)
  }

  ghost predicate CapsHold(s: FrozenScenario, x: Bits) {
    forall j :: 0 <= j < |s.windows| ==> CapHolds(VariablesOf(s), SortedDraws(s), s.windows, j, x)
  }

  /** In every slack-encoded window the slack bits top the load up to the cap. */
  ghost predicate SlacksHold(s: FrozenScenario, policy: PenaltyPolicy, x: Bits)
    requires PositiveAmounts(s.draws) && PositiveCaps(s.windows)
  {
    SortedDrawsPositive(s);
    var st := StateBeforeBudgets(s, policy);
    forall j :: 0 <= j < |s.windows| ==> SlackHolds(st, VariablesOf(s), SortedDraws(s), s.windows, j, policy, x)
  }

  lemma BudgetEnergyMeaning(s: FrozenScenario, policy: PenaltyPolicy, x: Bits)
    requires ValidScenario(s, policy) && ValidPolicy(policy) && PositiveAmounts(s.draws) && PositiveCaps(s.windows)
    requires KeysDistinct(s.draws, s.windows) && AfterBudgets(s, policy).refusals == []
    ensures PositiveAmounts(SortedDraws(s))
    ensures PenaltyLike(BudgetEnergy(s, policy, x), policy.budget)
    ensures BudgetEnergy(s, policy, x) == 0 <==> CapsHold(s, x) && SlacksHold(s, policy, x)
  {
    SortedDrawsPositive(s);
    SortedResolved(s);
    ResolvedUnderCap(VariablesOf(s), SortedDraws(s), s.windows);
    assert s.windows[..|s.windows|] == s.windows;
    BudgetsMeaning(StateBeforeBudgets(s, policy), VariablesOf(s), SortedDraws(s), s.windows, |s.windows|, policy, x);
    WindowsHoldEach(StateBeforeBudgets(s, policy), VariablesOf(s), SortedDraws(s), s.windows, |s.windows|, policy, x);
  }

  lemma CardinalityAboveFloor(s: FrozenScenario, policy: PenaltyPolicy, x: Bits)
    requires Compile(s, policy).Compiled? && CardinalityEnergy(s, policy.cardinality, x) != 0
    ensures CardinalityEnergy(s, policy.cardinality, x) > DeltaOf(s)
  {
    CompiledMeans(s, policy);
    var draws, v := SortedDraws(s), VariablesOf(s);
    EveryDrawNamed(draws, s.windows);
    CardinalityMeaning(v, draws, s.windows, policy.cardinality, x);
    assert draws != [];
    CardinalityChecked(v, draws, s.windows, policy.cardinality);
    var st := StateBeforeBudgets(s, policy);
    var c :| c in CardinalityConstraints(v, draws, s.windows, policy.cardinality) && c.penalty == policy.cardinality;
    assert c in st.constraints;
    StampedAboveFloor(s, policy, c);
  }

  lemma StampedAboveFloor(s: FrozenScenario, policy: PenaltyPolicy, c: Constraint)
    requires Compile(s, policy).Compiled? && c in StateBeforeBudgets(s, policy).constraints
    ensures c.penalty > DeltaOf(s)
  {
    CompiledMeans(s, policy);
    SortedDrawsPositive(s);
    BudgetsExtend(StateBeforeBudgets(s, policy), VariablesOf(s), SortedDraws(s), s.windows, policy);
    assert c in AfterBudgets(s, policy).constraints;
    FloorMeaning(AfterBudgets(s, policy).constraints, DeltaOf(s));
  }

  lemma PrecedenceAboveFloor(s: FrozenScenario, policy: PenaltyPolicy, x: Bits)
    requires Compile(s, policy).Compiled? && PrecedenceEnergy(s, policy.precedence, x) != 0
    ensures PrecedenceEnergy(s, policy.precedence, x) > DeltaOf(s)
  {
    CompiledMeans(s, policy);
    var v, ps := VariablesOf(s), SortedPrecedence(s);
    PrecedenceMeaning(v, ps, s.windows, policy.precedence, x);
    PrecedenceChecked(v, ps, s.windows, policy.precedence, x);
    var c :| c in PrecedenceConstraints(v, ps, s.windows, policy.precedence) && c.penalty == policy.precedence;
    assert c in StateBeforeBudgets(s, policy).constraints;
    StampedAboveFloor(s, policy, c);
  }

  lemma BudgetAboveFloor(s: FrozenScenario, policy: PenaltyPolicy, x: Bits)
    requires Compile(s, policy).Compiled? && KeysDistinct(s.draws, s.windows)
    requires PositiveAmounts(s.draws) && PositiveCaps(s.windows) && BudgetEnergy(s, policy, x) != 0
    ensures BudgetEnergy(s, policy, x) > DeltaOf(s)
  {
    CompiledMeans(s, policy);
    SortedDrawsPositive(s);
    BudgetEnergyMeaning(s, policy, x);
    BudgetsChecked(StateBeforeBudgets(s, policy), VariablesOf(s), SortedDraws(s), s.windows, policy, x);
    FloorMeaning(AfterBudgets(s, policy).constraints, DeltaOf(s));
  }

  lemma PenaltiesNonNegative(s: FrozenScenario, policy: PenaltyPolicy, x: Bits)
    requires Compile(s, policy).Compiled? && KeysDistinct(s.draws, s.windows)
    requires PositiveAmounts(s.draws) && PositiveCaps(s.windows)
    ensures CardinalityEnergy(s, policy.cardinality, x) >= 0
    ensures PrecedenceEnergy(s, policy.precedence, x) >= 0
    ensures BudgetEnergy(s, policy, x) >= 0
  {
    CompiledMeans(s, policy);
    EveryDrawNamed(SortedDraws(s), s.windows);
    CardinalityMeaning(VariablesOf(s), SortedDraws(s), s.windows, policy.cardinality, x);
    PrecedenceMeaning(VariablesOf(s), SortedPrecedence(s), s.windows, policy.precedence, x);
    BudgetEnergyMeaning(s, policy, x);
  }

  /** A bitstring that breaks any constraint costs strictly more than every one that breaks none. */
  lemma PenaltyGap(s: FrozenScenario, policy: PenaltyPolicy, x: Bits, y: Bits)
    requires Compile(s, policy).Compiled? && KeysDistinct(s.draws, s.windows)
    requires PositiveAmounts(s.draws) && PositiveCaps(s.windows)
    requires !PenaltyFree(s, policy, x) && PenaltyFree(s, policy, y)
    ensures QuboEnergy(Compile(s, policy).artifact.qubo, x) > QuboEnergy(Compile(s, policy).artifact.qubo, y)
  {
    CompiledMeans(s, policy);
    PenaltiesNonNegative(s, policy, x);
    if CardinalityEnergy(s, policy.cardinality, x) != 0 { CardinalityAboveFloor(s, policy, x); }
    if PrecedenceEnergy(s, policy.precedence, x) != 0 { PrecedenceAboveFloor(s, policy, x); }
    if BudgetEnergy(s, policy, x) != 0 { BudgetAboveFloor(s, policy, x); }
    EveryDrawNamed(SortedDraws(s), s.windows);
    StepsSwing(EconomicSteps(VariablesOf(s), SortedDraws(s), SortedConcentration(s), s.windows), y, x);
    StepsDecompose(s, policy, x);
    StepsDecompose(s, policy, y);
    AssembleKeepsEnergy(AfterBudgets(s, policy).form, x);
    AssembleKeepsEnergy(AfterBudgets(s, policy).form, y);
  }

  // ---------------------------------------------------------------------------
  // From bits to schedules
  // ---------------------------------------------------------------------------

  lemma DrawIdsPermuted(s: FrozenScenario, policy: PenaltyPolicy)
    requires ValidScenario(s, policy)
    ensures DrawIds(SortedDraws(s)) == DrawIds(s.draws)
    ensures forall i :: 0 <= i < |SortedDraws(s)| ==> SortedDraws(s)[i].id != ""
  {
    SortedDrawsUnique(s);
    var ds := SortedDraws(s);
    forall i | 0 <= i < |ds| ensures ds[i].id != "" {
      assert ds[i] in s.draws;
    }
    forall id ensures id in DrawIds(ds) <==> id in DrawIds(s.draws) {
      DrawIdsAre(ds, id);
      DrawIdsAre(s.draws, id);
      DrawKnownPermuted(ds, s.draws, id);
    }
  }

  lemma DrawKnownPermuted(a: seq<Draw>, b: seq<Draw>, id: string)
    requires forall d :: d in a <==> d in b
    ensures DrawKnown(a, id) <==> DrawKnown(b, id)
  {
    if DrawKnown(a, id) {
      var i :| 0 <= i < |a| && a[i].id == id;
      assert a[i] in b;
    }
    if DrawKnown(b, id) {
      var i :| 0 <= i < |b| && b[i].id == id;
      assert b[i] in a;
    }
  }

  /** Decoding does not look at the order of the draws. */
  lemma DecodesPermuted(symbols: seq<Symbol>, x: Bits, a: seq<Draw>, b: seq<Draw>, sched: Schedule)
    requires (forall d :: d in a <==> d in b) && DrawIds(a) == DrawIds(b)
    requires Decodes(symbols, x, a, sched)
    ensures Decodes(symbols, x, b, sched)
  {
    forall i | 0 <= i < |b| ensures HasSlot(symbols, x, b[i].id, SlotOf(sched, b[i].id)) {
      assert b[i] in a;
      var k :| 0 <= k < |a| && a[k] == b[i];
    }
  }
}
