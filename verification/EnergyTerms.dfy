/**
 * The energy of every bitstring, feasible or not, in closed form: economic
 * values of the bits that are on, squared slot excess per draw, one penalty per
 * inversion and per over-cap pair, and the squared residual of each slack window.
 */
module EnergyTerms {
  import opened Sums
  import opened Ordering
  import opened QuadraticForm
  import opened Slack
  import opened Scenario
  import opened CompilerSpec
  import opened Decomposition
  import opened PenaltyTerms

  // ---------------------------------------------------------------------------
  // Economic terms
  // ---------------------------------------------------------------------------

  function PlacementValue(v: Variables, x: Bits, d: Draw): Window -> int {
    (w: Window) => if Placed(v, x, d.id, w.id) then Delay(d.delayCost, w.id) - d.utility else 0
  }

  predicate DeferredBy(v: Variables, x: Bits, d: Draw) {
    d.id in v.zBit && On(x, v.zBit[d.id])
  }

  /** What a draw's bits are worth: the cost of every placement that is on, and of the deferral if it is. */
  function DrawValue(v: Variables, x: Bits, ws: seq<Window>): Draw -> int {
    (d: Draw) => SumOver(ws, PlacementValue(v, x, d)) + if DeferredBy(v, x, d) then d.deferralCost else 0
  }

  function SharedValue(v: Variables, x: Bits, c: Concentration): Window -> int {
    (w: Window) => if Placed(v, x, c.left, w.id) && Placed(v, x, c.right, w.id) then c.weight else 0
  }

  /** A concentration pair's weight, once for every window both its draws are placed in. */
  function CrowdingValue(v: Variables, x: Bits, ws: seq<Window>): Concentration -> int {
    (c: Concentration) => SumOver(ws, SharedValue(v, x, c))
  }

  lemma {:induction false} PlacementTotal(v: Variables, d: Draw, ws: seq<Window>, x: Bits)
    ensures StepsEnergy(PlacementSteps(v, d, ws), x) == SumOver(ws, PlacementValue(v, x, d))
  {
    if ws != [] {
      PlacementTotal(v, d, Front(ws), x);
      var rest, w := PlacementSteps(v, d, Front(ws)), Last(ws);
      if HasX(v, d.id, w.id) {
        var step := Linear(XBit(v, d.id, w.id), PlacementCost(d, w.id));
        StepsEnergyConcat(rest, [step], x);
        StepsEnergySingle(step, x);
      } else {
        assert PlacementSteps(v, d, ws) == rest;
      }
    }
  }

  lemma {:induction false} ObjectiveTotal(v: Variables, draws: seq<Draw>, ws: seq<Window>, x: Bits)
    requires Named(v, draws)
    ensures StepsEnergy(ObjectiveSteps(v, draws, ws), x) == SumOver(draws, DrawValue(v, x, ws))
  {
    if draws != [] {
      var d := Last(draws);
      ObjectiveTotal(v, Front(draws), ws, x);
      PlacementTotal(v, d, ws, x);
      var deferral := Linear(v.zBit[d.id], d.deferralCost);
      StepsEnergyConcat(PlacementSteps(v, d, ws), [deferral], x);
      StepsEnergySingle(deferral, x);
      StepsEnergyConcat(ObjectiveSteps(v, Front(draws), ws), DrawSteps(v, d, ws), x);
    }
  }

  lemma {:induction false} CrowdingTotal(v: Variables, c: Concentration, ws: seq<Window>, x: Bits)
    ensures StepsEnergy(CrowdingSteps(v, c, ws), x) == SumOver(ws, SharedValue(v, x, c))
  {
    if ws != [] {
      CrowdingTotal(v, c, Front(ws), x);
      var rest, w := CrowdingSteps(v, c, Front(ws)), Last(ws);
      if HasX(v, c.left, w.id) && HasX(v, c.right, w.id) {
        var step := Pair(XBit(v, c.left, w.id), XBit(v, c.right, w.id), c.weight);
        StepsEnergyConcat(rest, [step], x);
        StepsEnergySingle(step, x);
      } else {
        assert CrowdingSteps(v, c, ws) == rest;
      }
    }
  }

  lemma {:induction false} WeightlessCrowding(v: Variables, x: Bits, c: Concentration, ws: seq<Window>)
    requires c.weight == 0
    ensures SumOver(ws, SharedValue(v, x, c)) == 0
  {
    if ws != [] { WeightlessCrowding(v, x, c, Front(ws)); }
  }

  lemma {:induction false} ConcentrationTotal(v: Variables, cs: seq<Concentration>, ws: seq<Window>, x: Bits)
    ensures StepsEnergy(ConcentrationSteps(v, cs, ws), x) == SumOver(cs, CrowdingValue(v, x, ws))
  {
    if cs != [] {
      var rest, c := ConcentrationSteps(v, Front(cs), ws), Last(cs);
      ConcentrationTotal(v, Front(cs), ws, x);
      if c.weight == 0 {
        WeightlessCrowding(v, x, c, ws);
        assert ConcentrationSteps(v, cs, ws) == rest;
      } else {
        CrowdingTotal(v, c, ws, x);
        StepsEnergyConcat(rest, CrowdingSteps(v, c, ws), x);
      }
    }
  }

  /** `P` charged `n` times. */
  function Charge(P: int, n: nat): int { P * n }

  lemma OneMore(P: int, n: nat)
    ensures Charge(P, 0) == 0 && Charge(P, n + 1) == Charge(P, n) + P
  {
  }

  // ---------------------------------------------------------------------------
  // Cardinality and precedence
  // ---------------------------------------------------------------------------

  /** The square of how far a draw's slots that are on miss being exactly one. */
  function SlotExcess(v: Variables, x: Bits, ws: seq<Window>): Draw -> int {
    (d: Draw) => Square(SlotCount(v, x, d, ws) - 1)
  }

  lemma {:induction false} CardinalityTotal(v: Variables, draws: seq<Draw>, ws: seq<Window>, P: int, x: Bits)
    requires Named(v, draws)
    ensures StepsEnergy(CardinalitySteps(v, draws, ws, P), x) == P * SumOver(draws, SlotExcess(v, x, ws))
  {
    hide Square, SquareSteps, SlotCount, Load;
    if draws != [] {
      var d := Last(draws);
      CardinalityTotal(v, Front(draws), ws, P, x);
      var terms := UnitTerms(DrawBits(v, d, ws));
      StepsEnergyConcat(CardinalitySteps(v, Front(draws), ws, P), SquareSteps(terms, 1, P), x);
      SquareStepsEnergy(terms, 1, P, x);
      CardinalityLoad(v, x, d, ws);
      Distribute(P, SumOver(Front(draws), SlotExcess(v, x, ws)), Square(SlotCount(v, x, d, ws) - 1));
    }
  }

  /** Window pairs (a, b) with `after` placed in `a`, a < A, and `before` placed in `b`, a <= b. */
  function InversionCount(v: Variables, x: Bits, pr: Precedence, ws: seq<Window>, A: nat): nat
    requires A <= |ws|
  {
    if A == 0 then 0
    else InversionCount(v, x, pr, ws, A - 1)
         + if Placed(v, x, pr.after, ws[A - 1].id) then PlacedCount(v, x, pr.before, ws[A - 1..]) else 0
  }

  function Inversions(v: Variables, x: Bits, ws: seq<Window>): Precedence -> int {
    (pr: Precedence) => InversionCount(v, x, pr, ws, |ws|)
  }

  lemma PlacedCountSlice(v: Variables, x: Bits, draw: string, ws: seq<Window>, a: nat, k: nat)
    requires a < k <= |ws|
    ensures PlacedCount(v, x, draw, ws[a..k])
         == PlacedCount(v, x, draw, ws[a..k - 1]) + if Placed(v, x, draw, ws[k - 1].id) then 1 else 0
  {
    hide Placed;
    assert Front(ws[a..k]) == ws[a..k - 1];
  }

  lemma {:induction false} ForbiddenWithTotal(v: Variables, pr: Precedence, ws: seq<Window>, a: nat, k: nat, P: int, x: Bits)
    requires a <= k <= |ws| && a < |ws| && HasX(v, pr.after, ws[a].id)
    ensures StepsEnergy(ForbiddenWith(v, pr, ws, a, k, P), x)
         == if Placed(v, x, pr.after, ws[a].id) then Charge(P, PlacedCount(v, x, pr.before, ws[a..k])) else 0
  {
    hide Charge, PlacedCount, StepsEnergy;
    if k == a {
      NothingForbidden(v, pr, ws, a, k, P);
      assert ws[a..k] == [];
      NoneCharged(v, x, pr.before, P);
    } else {
      ForbiddenWithTotal(v, pr, ws, a, k - 1, P, x);
      PlacedCountSlice(v, x, pr.before, ws, a, k);
      OneMore(P, PlacedCount(v, x, pr.before, ws[a..k - 1]));
      var rest := ForbiddenWith(v, pr, ws, a, k - 1, P);
      if HasX(v, pr.before, ws[k - 1].id) {
        var step := Pair(XBit(v, pr.after, ws[a].id), XBit(v, pr.before, ws[k - 1].id), P);
        StepsEnergyConcat(rest, [step], x);
        StepsEnergySingle(step, x);
      } else {
        assert ForbiddenWith(v, pr, ws, a, k, P) == rest;
      }
    }
  }

  lemma {:induction false} NothingForbidden(v: Variables, pr: Precedence, ws: seq<Window>, a: nat, k: nat, P: int)
    requires k <= a < |ws| && HasX(v, pr.after, ws[a].id)
    ensures ForbiddenWith(v, pr, ws, a, k, P) == []
  {
    if k > 0 { NothingForbidden(v, pr, ws, a, k - 1, P); }
  }

  lemma NoneCharged(v: Variables, x: Bits, draw: string, P: int)
    ensures Charge(P, PlacedCount(v, x, draw, [])) == 0 && StepsEnergy([], x) == 0
  {
  }

  lemma {:induction false} ForbiddenTotal(v: Variables, pr: Precedence, ws: seq<Window>, A: nat, P: int, x: Bits)
    requires A <= |ws|
    ensures StepsEnergy(ForbiddenSteps(v, pr, ws, A, P), x) == P * InversionCount(v, x, pr, ws, A)
  {
    if A > 0 {
      ForbiddenTotal(v, pr, ws, A - 1, P, x);
      var rest := ForbiddenSteps(v, pr, ws, A - 1, P);
      Distribute(P, InversionCount(v, x, pr, ws, A - 1), PlacedCount(v, x, pr.before, ws[A - 1..]));
      if HasX(v, pr.after, ws[A - 1].id) {
        ForbiddenWithTotal(v, pr, ws, A - 1, |ws|, P, x);
        StepsEnergyConcat(rest, ForbiddenWith(v, pr, ws, A - 1, |ws|, P), x);
        assert ws[A - 1..|ws|] == ws[A - 1..];
      } else {
        assert ForbiddenSteps(v, pr, ws, A, P) == rest;
      }
    }
  }

  lemma {:induction false} PrecedenceTotal(v: Variables, ps: seq<Precedence>, ws: seq<Window>, P: int, x: Bits)
    ensures StepsEnergy(PrecedenceSteps(v, ps, ws, P), x) == P * SumOver(ps, Inversions(v, x, ws))
  {
    if ps != [] {
      PrecedenceTotal(v, Front(ps), ws, P, x);
      ForbiddenTotal(v, Last(ps), ws, |ws|, P, x);
      StepsEnergyConcat(PrecedenceSteps(v, Front(ps), ws, P), ForbiddenSteps(v, Last(ps), ws, |ws|, P), x);
      Distribute(P, SumOver(Front(ps), Inversions(v, x, ws)), InversionCount(v, x, Last(ps), ws, |ws|));
    }
  }

  // ---------------------------------------------------------------------------
  // Budget
  // ---------------------------------------------------------------------------

  /** Of `ms`, the members that are on and overfill the cap together with `m`. */
  function OverfullWith(m: Member, ms: seq<Member>, cap: int, x: Bits): nat {
    if ms == [] then 0
    else OverfullWith(m, Front(ms), cap, x) + if On(x, Last(ms).bit) && m.amount + Last(ms).amount > cap then 1 else 0
  }

  /** Member pairs (i, j), i < k and i < j, that are both on and overfill the cap. */
  function OverfullPairs(ms: seq<Member>, k: nat, cap: int, x: Bits): nat
    requires k <= |ms|
  {
    if k == 0 then 0
    else OverfullPairs(ms, k - 1, cap, x) + if On(x, ms[k - 1].bit) then OverfullWith(ms[k - 1], ms[k..], cap, x) else 0
  }

  lemma OverCapRowUnfolds(m: Member, ms: seq<Member>, cap: int, P: int, x: Bits)
    requires ms != []
    ensures StepsEnergy(OverCapRow(m, ms, cap, P), x)
         == StepsEnergy(OverCapRow(m, Front(ms), cap, P), x)
          + if m.amount + Last(ms).amount > cap && On(x, m.bit) && On(x, Last(ms).bit) then P else 0
  {
    var rest := OverCapRow(m, Front(ms), cap, P);
    if m.amount + Last(ms).amount > cap {
      var step := Pair(m.bit, Last(ms).bit, P);
      hide StepsEnergy;
      StepsEnergyConcat(rest, [step], x);
      StepsEnergySingle(step, x);
    } else {
      hide StepsEnergy;
      assert OverCapRow(m, ms, cap, P) == rest;
    }
  }

  lemma EmptyRowTotal(m: Member, cap: int, P: int, x: Bits)
    ensures StepsEnergy(OverCapRow(m, [], cap, P), x) == Charge(P, OverfullWith(m, [], cap, x)) == 0
  {
  }

  lemma {:induction false} OverCapRowTotal(m: Member, ms: seq<Member>, cap: int, P: int, x: Bits)
    ensures StepsEnergy(OverCapRow(m, ms, cap, P), x) == if On(x, m.bit) then Charge(P, OverfullWith(m, ms, cap, x)) else 0
  {
    hide Charge, StepsEnergy, OverCapRow;
    if ms == [] {
      EmptyRowTotal(m, cap, P, x);
    } else {
      OverCapRowTotal(m, Front(ms), cap, P, x);
      OverCapRowUnfolds(m, ms, cap, P, x);
      OneMore(P, OverfullWith(m, Front(ms), cap, x));
    }
  }

  lemma {:induction false} OverCapPairsTotal(ms: seq<Member>, k: nat, cap: int, P: int, x: Bits)
    requires k <= |ms|
    ensures StepsEnergy(OverCapPairs(ms, k, cap, P), x) == P * OverfullPairs(ms, k, cap, x)
  {
    if k > 0 {
      OverCapPairsTotal(ms, k - 1, cap, P, x);
      OverCapRowTotal(ms[k - 1], ms[k..], cap, P, x);
      StepsEnergyConcat(OverCapPairs(ms, k - 1, cap, P), OverCapRow(ms[k - 1], ms[k..], cap, P), x);
      Distribute(P, OverfullPairs(ms, k - 1, cap, x), OverfullWith(ms[k - 1], ms[k..], cap, x));
    }
  }

  /**
   * How far a bitstring misses a window's cap, in the encoding the window has:
   * over-cap pairs that are on, or the square of scaled load plus slack minus
   * scaled cap. The slack bits, if any, start at bit `from`.
   */
  function CapMisses(ms: seq<Member>, cap: nat, from: nat, maxSlackBits: int, x: Bits): int
    requires PositiveMembers(ms) && cap > 0
  {
    match EncodingOf(ms, cap)
    case NoBudget => 0
    case PairPruned => OverfullPairs(ms, |ms|, cap, x)
    case SlackEncoded =>
      var width := SlackWidth(NatAmounts(ms), cap);
      if width > maxSlackBits then 0
      else
        UnitDivides(NatAmounts(ms), cap);
        Square(Residual(NatAmounts(ms), cap, Selection(ms, x), SlackBits(x, from, width)))
  }

  lemma WindowTotal(ms: seq<Member>, w: Window, from: nat, policy: PenaltyPolicy, x: Bits)
    requires PositiveMembers(ms) && w.liquidityCapMinor > 0
    ensures WindowEnergy(ms, w, from, policy, x)
         == policy.budget * CapMisses(ms, w.liquidityCapMinor, from, policy.maxSlackBits, x)
  {
    hide Residual;
    var cap := w.liquidityCapMinor;
    match EncodingOf(ms, cap)
    case NoBudget =>
    case PairPruned => OverCapPairsTotal(ms, |ms|, cap, policy.budget, x);
    case SlackEncoded => SlackResidual(ms, cap, from, x);
  }

  /** The misses of all windows, each with its slack bits behind those of the windows before it. */
  function CapMissesTotal(st: BudgetState, v: Variables, draws: seq<Draw>, ws: seq<Window>, policy: PenaltyPolicy, x: Bits): int
    requires PositiveAmounts(draws) && PositiveCaps(ws)
  {
    if ws == [] then 0
    else
      MembersPositive(v, draws, Last(ws).id);
      CapMissesTotal(st, v, draws, Front(ws), policy, x)
      + CapMisses(Members(v, draws, Last(ws).id), Last(ws).liquidityCapMinor,
                  |Budgets(st, v, draws, Front(ws), policy).symbols|, policy.maxSlackBits, x)
  }

  lemma {:induction false} BudgetsTotal(st: BudgetState, v: Variables, draws: seq<Draw>, ws: seq<Window>,
                                       policy: PenaltyPolicy, x: Bits)
    requires PositiveAmounts(draws) && PositiveCaps(ws)
    ensures BudgetsEnergy(st, v, draws, ws, policy, x) == policy.budget * CapMissesTotal(st, v, draws, ws, policy, x)
  {
    hide WindowEnergy, CapMisses, Budgets;
    if ws != [] {
      var w, from := Last(ws), |Budgets(st, v, draws, Front(ws), policy).symbols|;
      var ms := Members(v, draws, w.id);
      BudgetsTotal(st, v, draws, Front(ws), policy, x);
      MembersPositive(v, draws, w.id);
      WindowTotal(ms, w, from, policy, x);
      Distribute(policy.budget, CapMissesTotal(st, v, draws, Front(ws), policy, x),
                 CapMisses(ms, w.liquidityCapMinor, from, policy.maxSlackBits, x));
    }
  }

  // ---------------------------------------------------------------------------
  // The whole form
  // ---------------------------------------------------------------------------

  /** The economic part of the energy, over the draws and pairs as the scenario lists them. */
  function EconomicValue(s: FrozenScenario, x: Bits): int {
    var v, ws := VariablesOf(s), s.windows;
    SumOver(s.draws, DrawValue(v, x, ws)) + SumOver(s.concentrationPairs, CrowdingValue(v, x, ws))
  }

  function SlotMisses(s: FrozenScenario, x: Bits): int {
    SumOver(s.draws, SlotExcess(VariablesOf(s), x, s.windows))
  }

  function OrderMisses(s: FrozenScenario, x: Bits): int {
    SumOver(s.precedence, Inversions(VariablesOf(s), x, s.windows))
  }

  function BudgetMisses(s: FrozenScenario, policy: PenaltyPolicy, x: Bits): int
    requires PositiveAmounts(s.draws) && PositiveCaps(s.windows)
  {
    SortedDrawsPositive(s);
    CapMissesTotal(StateBeforeBudgets(s, policy), VariablesOf(s), SortedDraws(s), s.windows, policy, x)
  }

  lemma EconomicTotal(s: FrozenScenario, x: Bits)
    ensures EconomicEnergy(s, x) == EconomicValue(s, x)
  {
    var v, ds, cs, ws := VariablesOf(s), SortedDraws(s), SortedConcentration(s), s.windows;
    EveryDrawNamed(ds, ws);
    hide ObjectiveSteps, ConcentrationSteps, DrawValue, CrowdingValue, SortBy, NameVariables, SumOver;
    ObjectiveTotal(v, ds, ws, x);
    ConcentrationTotal(v, cs, ws, x);
    StepsEnergyConcat(ObjectiveSteps(v, ds, ws), ConcentrationSteps(v, cs, ws), x);
    SortBySorts(s.draws, DrawKey);
    SortBySorts(s.concentrationPairs, ConcentrationKey);
    SumOverPermuted(ds, s.draws, DrawValue(v, x, ws));
    SumOverPermuted(cs, s.concentrationPairs, CrowdingValue(v, x, ws));
  }

  lemma PenaltyTotals(s: FrozenScenario, policy: PenaltyPolicy, x: Bits)
    ensures CardinalityEnergy(s, policy.cardinality, x) == policy.cardinality * SlotMisses(s, x)
    ensures PrecedenceEnergy(s, policy.precedence, x) == policy.precedence * OrderMisses(s, x)
  {
    var v, ds, ps, ws := VariablesOf(s), SortedDraws(s), SortedPrecedence(s), s.windows;
    EveryDrawNamed(ds, ws);
    hide CardinalitySteps, PrecedenceSteps, SlotExcess, Inversions, SortBy, NameVariables, SumOver;
    CardinalityTotal(v, ds, ws, policy.cardinality, x);
    PrecedenceTotal(v, ps, ws, policy.precedence, x);
    SortBySorts(s.draws, DrawKey);
    SortBySorts(s.precedence, PrecedenceKey);
    SumOverPermuted(ds, s.draws, SlotExcess(v, x, ws));
    SumOverPermuted(ps, s.precedence, Inversions(v, x, ws));
  }

  /**
   * For every bitstring, the accumulated form is worth the economic value of the
   * bits that are on, plus each penalty times how often its constraint is missed.
   */
  lemma EnergyDecomposes(s: FrozenScenario, policy: PenaltyPolicy, x: Bits)
    requires PositiveAmounts(s.draws) && PositiveCaps(s.windows)
    ensures Energy(AfterBudgets(s, policy).form, x)
         == EconomicValue(s, x)
          + policy.cardinality * SlotMisses(s, x)
          + policy.precedence * OrderMisses(s, x)
          + policy.budget * BudgetMisses(s, policy, x)
  {
    StepsDecompose(s, policy, x);
    EconomicTotal(s, x);
    PenaltyTotals(s, policy, x);
    SortedDrawsPositive(s);
    BudgetsTotal(StateBeforeBudgets(s, policy), VariablesOf(s), SortedDraws(s), s.windows, policy, x);
  }
}
