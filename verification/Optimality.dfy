/** Bits to schedules and back, and the theorem they add up to: least energy is least cost among feasible schedules. */
module Optimality {
  import opened Sums
  import opened Ordering
  import opened QuadraticForm
  import opened Artifact
  import opened PairPruning
  import opened Slack
  import opened Scenario
  import opened CompilerSpec
  import opened Decomposition
  import opened Schedules
  import opened VariableTable
  import opened PenaltyTerms
  import opened Representation
  import opened Meaning

  // ---------------------------------------------------------------------------
  // A represented schedule: its economic energy, loads and order
  // ---------------------------------------------------------------------------

  lemma SortedRefsKnown(s: FrozenScenario, policy: PenaltyPolicy)
    requires ValidScenario(s, policy)
    ensures forall k :: 0 <= k < |SortedConcentration(s)| ==>
              DrawKnown(SortedDraws(s), SortedConcentration(s)[k].left) && DrawKnown(SortedDraws(s), SortedConcentration(s)[k].right)
    ensures forall k :: 0 <= k < |s.precedence| ==>
              DrawKnown(SortedDraws(s), s.precedence[k].before) && DrawKnown(SortedDraws(s), s.precedence[k].after)
  {
    var ds := SortedDraws(s);
    DrawIdsPermuted(s, policy);
    SortKeepsElements(s.concentrationPairs, ConcentrationKey);
    var cs := SortedConcentration(s);
    forall k | 0 <= k < |cs| ensures DrawKnown(ds, cs[k].left) && DrawKnown(ds, cs[k].right) {
      assert cs[k] in s.concentrationPairs;
      DrawIdsAre(ds, cs[k].left);
      DrawIdsAre(ds, cs[k].right);
    }
    forall k | 0 <= k < |s.precedence| ensures DrawKnown(ds, s.precedence[k].before) && DrawKnown(ds, s.precedence[k].after) {
      assert ValidPrecedence(s.precedence[k], DrawIds(s.draws));
      DrawIdsAre(ds, s.precedence[k].before);
      DrawIdsAre(ds, s.precedence[k].after);
    }
  }

  lemma RepresentedEconomy(s: FrozenScenario, policy: PenaltyPolicy, x: Bits, sched: Schedule)
    requires ValidScenario(s, policy)
    requires Represents(VariablesOf(s), x, SortedDraws(s), s.windows, sched)
    ensures EconomicEnergy(s, x) == Cost(s, sched)
  {
    hide DrawAs, ValidDraw, ValidWindow, ValidHeader, ValidPrecedence, ValidConcentration;
    var v, ds, cs, ws := VariablesOf(s), SortedDraws(s), SortedConcentration(s), s.windows;
    EveryDrawNamed(ds, ws);
    SortedRefsKnown(s, policy);
    ObjectiveEnergy(v, x, ds, ws, sched);
    ConcentrationEnergy(v, x, cs, ds, ws, sched);
    StepsEnergyConcat(ObjectiveSteps(v, ds, ws), ConcentrationSteps(v, cs, ws), x);
    SortBySorts(s.draws, DrawKey);
    SortBySorts(s.concentrationPairs, ConcentrationKey);
    SumOverPermuted(ds, s.draws, DrawCost(sched));
    SumOverPermuted(cs, s.concentrationPairs, CrowdingCost(sched));
  }

  lemma RepresentedLoad(s: FrozenScenario, x: Bits, sched: Schedule, j: nat)
    requires j < |s.windows|
    requires Represents(VariablesOf(s), x, SortedDraws(s), s.windows, sched)
    ensures CapHolds(VariablesOf(s), SortedDraws(s), s.windows, j, x)
       <==> WindowLoad(s.draws, sched, s.windows[j].id) <= s.windows[j].liquidityCapMinor
  {
    hide DrawAs;
    var v, ds, ws := VariablesOf(s), SortedDraws(s), s.windows;
    SelectedLoadIsWindowLoad(v, x, ds, ws, sched, j);
    SortBySorts(s.draws, DrawKey);
    SumOverPermuted(ds, s.draws, AmountIn(sched, ws[j].id));
  }

  lemma RepresentedOrder(v: Variables, x: Bits, draws: seq<Draw>, ws: seq<Window>, sched: Schedule, pr: Precedence)
    requires Represents(v, x, draws, ws, sched) && DrawKnown(draws, pr.before) && DrawKnown(draws, pr.after)
    ensures NoInversion(v, x, pr, ws, |ws|) <==> InOrder(sched, pr, ws)
  {
    var i :| 0 <= i < |draws| && draws[i].id == pr.before;
    var k :| 0 <= k < |draws| && draws[k].id == pr.after;
    assert DrawAs(v, x, pr.before, ws, SlotOf(sched, pr.before));
    assert DrawAs(v, x, pr.after, ws, SlotOf(sched, pr.after));
    if NoInversion(v, x, pr, ws, |ws|) {
      forall a, b | 0 <= a < |ws| && 0 <= b < |ws|
                    && SlotOf(sched, pr.after) == In(ws[a].id) && SlotOf(sched, pr.before) == In(ws[b].id)
        ensures b < a
      {
        assert NoInversionWith(v, x, pr, ws, a, |ws|);
        assert Placed(v, x, pr.after, ws[a].id) && Placed(v, x, pr.before, ws[b].id);
      }
    }
    if InOrder(sched, pr, ws) {
      forall a | 0 <= a < |ws| ensures NoInversionWith(v, x, pr, ws, a, |ws|) {
        if Placed(v, x, pr.after, ws[a].id) {
          forall b | a <= b < |ws| ensures !Placed(v, x, pr.before, ws[b].id) {
            assert SlotOf(sched, pr.after) == In(ws[a].id);
          }
        }
      }
    }
  }

  lemma OrdersHold(s: FrozenScenario, policy: PenaltyPolicy, x: Bits, sched: Schedule)
    requires ValidScenario(s, policy) && ValidPolicy(policy)
    requires Represents(VariablesOf(s), x, SortedDraws(s), s.windows, sched)
    ensures PrecedenceEnergy(s, policy.precedence, x) == 0
       <==> forall k :: 0 <= k < |s.precedence| ==> InOrder(sched, s.precedence[k], s.windows)
  {
    hide Represents, InOrder, NoInversion, ValidDraw, ValidWindow, ValidHeader, ValidConcentration;
    var v, ds, ps, ws := VariablesOf(s), SortedDraws(s), SortedPrecedence(s), s.windows;
    PrecedenceMeaning(v, ps, ws, policy.precedence, x);
    SortKeepsElements(s.precedence, PrecedenceKey);
    SortedRefsKnown(s, policy);
    forall k | 0 <= k < |s.precedence|
      ensures NoInversion(v, x, s.precedence[k], ws, |ws|) <==> InOrder(sched, s.precedence[k], ws)
    {
      RepresentedOrder(v, x, ds, ws, sched, s.precedence[k]);
    }
    SameForAll(ps, s.precedence, v, x, ws);
  }

  // a property of every element does not depend on the order of the sequence
  lemma SameForAll(a: seq<Precedence>, b: seq<Precedence>, v: Variables, x: Bits, ws: seq<Window>)
    requires forall p :: p in a <==> p in b
    ensures (forall k :: 0 <= k < |a| ==> NoInversion(v, x, a[k], ws, |ws|))
       <==> (forall k :: 0 <= k < |b| ==> NoInversion(v, x, b[k], ws, |ws|))
  {
    hide NoInversion;
    if forall k :: 0 <= k < |a| ==> NoInversion(v, x, a[k], ws, |ws|) {
      forall k | 0 <= k < |b| ensures NoInversion(v, x, b[k], ws, |ws|) {
        assert b[k] in a;
      }
    }
    if forall k :: 0 <= k < |b| ==> NoInversion(v, x, b[k], ws, |ws|) {
      forall k | 0 <= k < |a| ensures NoInversion(v, x, a[k], ws, |ws|) {
        assert a[k] in b;
      }
    }
  }

  lemma RepresentedEligible(v: Variables, x: Bits, draws: seq<Draw>, ws: seq<Window>, sched: Schedule, i: nat)
    requires Resolved(v, draws, ws) && Represents(v, x, draws, ws, sched) && i < |draws|
    ensures SlotOf(sched, draws[i].id).In? ==> SlotOf(sched, draws[i].id).window in draws[i].windowEligibility
  {
    var slot := SlotOf(sched, draws[i].id);
    assert DrawAs(v, x, draws[i].id, ws, slot);
    if slot.In? {
      var j :| 0 <= j < |ws| && ws[j].id == slot.window;
      assert Placed(v, x, draws[i].id, ws[j].id);
      assert Resolves(v, draws[i], ws[j]);
    }
  }

  lemma RepresentedIsEligible(s: FrozenScenario, policy: PenaltyPolicy, x: Bits, sched: Schedule)
    requires ValidScenario(s, policy) && KeysDistinct(s.draws, s.windows)
    requires Represents(VariablesOf(s), x, SortedDraws(s), s.windows, sched)
    ensures forall i :: 0 <= i < |s.draws| ==>
              (SlotOf(sched, s.draws[i].id).In? ==> SlotOf(sched, s.draws[i].id).window in s.draws[i].windowEligibility)
  {
    SortedResolved(s);
    SortedDrawsUnique(s);
    var ds := SortedDraws(s);
    forall i | 0 <= i < |s.draws|
      ensures SlotOf(sched, s.draws[i].id).In? ==> SlotOf(sched, s.draws[i].id).window in s.draws[i].windowEligibility
    {
      assert s.draws[i] in ds;
      var k :| 0 <= k < |ds| && ds[k] == s.draws[i];
      RepresentedEligible(VariablesOf(s), x, ds, s.windows, sched, k);
    }
  }

  /** For a bitstring that stands for a schedule, being penalty-free is being feasible with the slack filled. */
  lemma RepresentedMeaning(s: FrozenScenario, policy: PenaltyPolicy, x: Bits, sched: Schedule)
    requires ValidScenario(s, policy) && ValidPolicy(policy) && KeysDistinct(s.draws, s.windows)
    requires PositiveAmounts(s.draws) && PositiveCaps(s.windows) && AfterBudgets(s, policy).refusals == []
    requires Represents(VariablesOf(s), x, SortedDraws(s), s.windows, sched)
    ensures PenaltyFree(s, policy, x) <==> Feasible(s, sched) && SlacksHold(s, policy, x)
    ensures EconomicEnergy(s, x) == Cost(s, sched)
  {
    hide InOrder, WindowLoad, SlacksHold, CapsHold, AfterBudgets, ValidScenario, ValidPolicy, KeysDistinct;
    hide CardinalityEnergy, PrecedenceEnergy, BudgetEnergy, EconomicEnergy, Cost;
    RepresentedEconomy(s, policy, x, sched);
    BudgetEnergyMeaning(s, policy, x);
    OrdersHold(s, policy, x, sched);
    CardinalityHolds(s, policy, x, sched);
    DrawIdsPermuted(s, policy);
    RepresentedIsEligible(s, policy, x, sched);
    CapsAreLoads(s, x, sched);
  }

  lemma CapsAreLoads(s: FrozenScenario, x: Bits, sched: Schedule)
    requires Represents(VariablesOf(s), x, SortedDraws(s), s.windows, sched)
    ensures CapsHold(s, x)
       <==> forall j :: 0 <= j < |s.windows| ==> WindowLoad(s.draws, sched, s.windows[j].id) <= s.windows[j].liquidityCapMinor
  {
    hide WindowLoad, CapHolds, Represents;
    var v, ds, ws := VariablesOf(s), SortedDraws(s), s.windows;
    forall j | 0 <= j < |ws|
      ensures CapHolds(v, ds, ws, j, x) <==> WindowLoad(s.draws, sched, ws[j].id) <= ws[j].liquidityCapMinor
    {
      RepresentedLoad(s, x, sched, j);
    }
  }

  lemma CardinalityHolds(s: FrozenScenario, policy: PenaltyPolicy, x: Bits, sched: Schedule)
    requires ValidScenario(s, policy) && ValidPolicy(policy)
    requires Represents(VariablesOf(s), x, SortedDraws(s), s.windows, sched)
    ensures CardinalityEnergy(s, policy.cardinality, x) == 0
  {
    hide DrawAs;
    var v, ds, ws := VariablesOf(s), SortedDraws(s), s.windows;
    EveryDrawNamed(ds, ws);
    forall i | 0 <= i < |ds| ensures SlotCount(v, x, ds[i], ws) == 1 {
      DrawAsHasOneSlot(v, x, ds[i], ws, SlotOf(sched, ds[i].id));
    }
    CardinalityMeaning(v, ds, ws, policy.cardinality, x);
  }

  lemma OneSlotEach(s: FrozenScenario, policy: PenaltyPolicy, x: Bits)
    requires ValidScenario(s, policy) && ValidPolicy(policy)
    requires CardinalityEnergy(s, policy.cardinality, x) == 0
    ensures Represents(VariablesOf(s), x, SortedDraws(s), s.windows,
                       ReadSchedule(VariablesOf(s), x, SortedDraws(s), s.windows))
  {
    var v, ds, ws := VariablesOf(s), SortedDraws(s), s.windows;
    EveryDrawNamed(ds, ws);
    DrawIdsPermuted(s, policy);
    CardinalityMeaning(v, ds, ws, policy.cardinality, x);
    OneSlotEachMeansSchedule(v, x, ds, ws);
  }

  // ---------------------------------------------------------------------------
  // The artifact's symbol table
  // ---------------------------------------------------------------------------

  lemma ArtifactSymbols(s: FrozenScenario, policy: PenaltyPolicy)
    requires Compile(s, policy).Compiled?
    ensures VariablesOf(s).symbols <= Compile(s, policy).artifact.symbols
    ensures var all := Compile(s, policy).artifact.symbols;
            forall p :: |VariablesOf(s).symbols| <= p < |all| ==> all[p].SlackSymbol?
  {
    CompiledMeans(s, policy);
    SortedDrawsPositive(s);
    BudgetsExtend(StateBeforeBudgets(s, policy), VariablesOf(s), SortedDraws(s), s.windows, policy);
  }

  /** Reading the artifact's symbol table is reading the compiler's own lookups. */
  lemma DecodingIsRepresenting(s: FrozenScenario, policy: PenaltyPolicy, x: Bits, sched: Schedule)
    requires Compile(s, policy).Compiled? && KeysDistinct(s.draws, s.windows)
    ensures Decodes(Compile(s, policy).artifact.symbols, x, s.draws, sched)
       <==> Represents(VariablesOf(s), x, SortedDraws(s), s.windows, sched)
  {
    hide Compile;
    var v, ds, all := VariablesOf(s), SortedDraws(s), Compile(s, policy).artifact.symbols;
    CompiledMeans(s, policy);
    ArtifactSymbols(s, policy);
    SortedResolved(s);
    SortedDrawsUnique(s);
    DrawIdsPermuted(s, policy);
    DecodesIgnoresSlack(v.symbols, all, x, ds, sched);
    RepresentsIsDecodes(v, x, ds, s.windows, sched);
    if Decodes(all, x, s.draws, sched) { DecodesPermuted(all, x, s.draws, ds, sched); }
    if Decodes(all, x, ds, sched) { DecodesPermuted(all, x, ds, s.draws, sched); }
  }

  function ArtifactEnergy(s: FrozenScenario, policy: PenaltyPolicy, x: Bits): real
    requires Compile(s, policy).Compiled?
  {
    QuboEnergy(Compile(s, policy).artifact.qubo, x)
  }

  lemma ArtifactEnergyDecomposes(s: FrozenScenario, policy: PenaltyPolicy, x: Bits)
    requires Compile(s, policy).Compiled?
    requires PositiveAmounts(s.draws) && PositiveCaps(s.windows)
    ensures ArtifactEnergy(s, policy, x) == (EconomicEnergy(s, x) + PenaltyEnergy(s, policy, x)) as real
  {
    hide Compile;
    CompiledMeans(s, policy);
    StepsDecompose(s, policy, x);
    AssembleKeepsEnergy(AfterBudgets(s, policy).form, x);
  }

  /** A penalty-free bitstring decodes to a feasible schedule and has exactly that schedule's cost. */
  lemma PenaltyFreeIsFeasible(s: FrozenScenario, policy: PenaltyPolicy, x: Bits) returns (sched: Schedule)
    requires Compile(s, policy).Compiled? && KeysDistinct(s.draws, s.windows)
    requires PositiveAmounts(s.draws) && PositiveCaps(s.windows) && PenaltyFree(s, policy, x)
    ensures Decodes(Compile(s, policy).artifact.symbols, x, s.draws, sched)
    ensures Feasible(s, sched) && ArtifactEnergy(s, policy, x) == Cost(s, sched) as real
  {
    hide Compile, Feasible, Represents, SlacksHold, ArtifactEnergy;
    CompiledMeans(s, policy);
    sched := ReadSchedule(VariablesOf(s), x, SortedDraws(s), s.windows);
    OneSlotEach(s, policy, x);
    RepresentedMeaning(s, policy, x, sched);
    DecodingIsRepresenting(s, policy, x, sched);
    ArtifactEnergyDecomposes(s, policy, x);
  }

  /** A bitstring that decodes to a schedule pays its cost, plus a penalty exactly when the schedule or the slack is wrong. */
  lemma DecodedEnergy(s: FrozenScenario, policy: PenaltyPolicy, x: Bits, sched: Schedule)
    requires Compile(s, policy).Compiled? && KeysDistinct(s.draws, s.windows)
    requires PositiveAmounts(s.draws) && PositiveCaps(s.windows)
    requires Decodes(Compile(s, policy).artifact.symbols, x, s.draws, sched)
    ensures ArtifactEnergy(s, policy, x) >= Cost(s, sched) as real
    ensures ArtifactEnergy(s, policy, x) == Cost(s, sched) as real <==> Feasible(s, sched) && SlacksHold(s, policy, x)
  {
    hide Compile, Feasible, Represents, SlacksHold, ArtifactEnergy, Decodes, KeysDistinct, Cost;
    CompiledMeans(s, policy);
    DecodingIsRepresenting(s, policy, x, sched);
    RepresentedMeaning(s, policy, x, sched);
    ArtifactEnergyDecomposes(s, policy, x);
    PenaltiesNonNegative(s, policy, x);
  }

  // ---------------------------------------------------------------------------
  // From schedules to bits
  // ---------------------------------------------------------------------------

  predicate SymbolOn(sym: Symbol, sched: Schedule) {
    match sym
    case XSymbol(a, b) => SlotOf(sched, a) == In(b)
    case ZSymbol(a) => SlotOf(sched, a) == Deferred
    case SlackSymbol(_, _) => false
  }

  function BaseBits(symbols: seq<Symbol>, sched: Schedule): (x: Bits)
    ensures |x| == |symbols|
  {
    seq(|symbols|, p requires 0 <= p < |symbols| => SymbolOn(symbols[p], sched))
  }

  lemma {:induction false} LoadCovers(draws: seq<Draw>, sched: Schedule, window: string, i: nat)
    requires PositiveAmounts(draws) && i < |draws| && SlotOf(sched, draws[i].id) == In(window)
    ensures draws[i].amountMinor <= WindowLoad(draws, sched, window)
  {
    assert forall k :: 0 <= k < |draws| - 1 ==> draws[k] == Front(draws)[k];
    assert Last(draws).amountMinor > 0;
    if i < |draws| - 1 {
      LoadCovers(Front(draws), sched, window, i);
    } else {
      SumOverNonNegative(Front(draws), AmountIn(sched, window));
    }
  }

  /** In a feasible schedule every placed draw has a bit: pruned variables are never needed. */
  lemma FeasibleIsLive(s: FrozenScenario, policy: PenaltyPolicy, sched: Schedule, i: nat, j: nat)
    requires ValidScenario(s, policy) && Feasible(s, sched) && i < |s.draws| && j < |s.windows|
    requires SlotOf(sched, s.draws[i].id) == In(s.windows[j].id)
    ensures Live(s.draws[i], s.windows[j])
  {
    ValidIsPositive(s, policy);
    LoadCovers(s.draws, sched, s.windows[j].id, i);
  }

  lemma KnownWindow(ws: seq<Window>, id: string)
    requires id in WindowIds(ws)
    ensures WindowKnown(ws, id)
  {
    if id != "" {
      FreshWindow(ws, id);
    } else {
      NoEmptyWindowId(ws);
    }
  }

  lemma {:induction false} NoEmptyWindowId(ws: seq<Window>)
    ensures "" !in WindowIds(ws)
  {
    if ws != [] { NoEmptyWindowId(Front(ws)); }
  }

  lemma BaseBitPlaced(v: Variables, d: Draw, w: Window, sched: Schedule)
    requires Resolves(v, d, w) && (SlotOf(sched, d.id) == In(w.id) ==> Live(d, w))
    ensures Placed(v, BaseBits(v.symbols, sched), d.id, w.id) <==> SlotOf(sched, d.id) == In(w.id)
  {
  }

  lemma BaseBitDeferred(v: Variables, id: string, sched: Schedule)
    requires id in v.zBit && LookupsNameSymbols(v)
    ensures On(BaseBits(v.symbols, sched), v.zBit[id]) <==> SlotOf(sched, id) == Deferred
  {
    assert v.symbols[v.zBit[id]] == ZSymbol(id);
  }

  lemma FeasibleWindowKnown(s: FrozenScenario, policy: PenaltyPolicy, sched: Schedule, k: nat)
    requires ValidScenario(s, policy) && Feasible(s, sched) && k < |s.draws| && SlotOf(sched, s.draws[k].id).In?
    ensures WindowKnown(s.windows, SlotOf(sched, s.draws[k].id).window)
  {
    assert ValidDraw(s.draws[k], WindowIds(s.windows));
    KnownWindow(s.windows, SlotOf(sched, s.draws[k].id).window);
  }

  lemma BaseBitsPlaced(s: FrozenScenario, policy: PenaltyPolicy, sched: Schedule, v: Variables, k: nat)
    requires ValidScenario(s, policy) && Feasible(s, sched) && k < |s.draws|
    requires forall j :: 0 <= j < |s.windows| ==> Resolves(v, s.draws[k], s.windows[j])
    ensures PlacedAs(v, BaseBits(v.symbols, sched), s.draws[k].id, s.windows, SlotOf(sched, s.draws[k].id))
  {
    hide Feasible, Live, BaseBits, Placed, ValidScenario, WindowKnown, Resolves;
    var x, d, ws := BaseBits(v.symbols, sched), s.draws[k], s.windows;
    var slot := SlotOf(sched, d.id);
    forall j | 0 <= j < |ws| ensures Placed(v, x, d.id, ws[j].id) <==> slot == In(ws[j].id) {
      if slot == In(ws[j].id) { FeasibleIsLive(s, policy, sched, k, j); }
      assert Resolves(v, d, ws[j]);
      BaseBitPlaced(v, d, ws[j], sched);
    }
    if slot.In? { FeasibleWindowKnown(s, policy, sched, k); }
  }

  lemma BaseBitsSlot(s: FrozenScenario, policy: PenaltyPolicy, sched: Schedule, i: nat)
    requires ValidScenario(s, policy) && KeysDistinct(s.draws, s.windows) && Feasible(s, sched)
    requires Resolved(VariablesOf(s), SortedDraws(s), s.windows) && i < |SortedDraws(s)|
    ensures DrawAs(VariablesOf(s), BaseBits(VariablesOf(s).symbols, sched), SortedDraws(s)[i].id, s.windows,
                   SlotOf(sched, SortedDraws(s)[i].id))
  {
    var v, ds := VariablesOf(s), SortedDraws(s);
    SortedDrawsUnique(s);
    assert ds[i] in s.draws;
    var k :| 0 <= k < |s.draws| && s.draws[k] == ds[i];
    hide Feasible, ValidScenario, KeysDistinct, Resolves, PlacedAs, BaseBits;
    assert forall j :: 0 <= j < |s.windows| ==> Resolves(v, ds[i], s.windows[j]);
    BaseBitsPlaced(s, policy, sched, v, k);
    BaseBitDeferred(v, ds[i].id, sched);
  }

  lemma BaseBitsRepresent(s: FrozenScenario, policy: PenaltyPolicy, sched: Schedule)
    requires ValidScenario(s, policy) && KeysDistinct(s.draws, s.windows) && Feasible(s, sched)
    ensures Represents(VariablesOf(s), BaseBits(VariablesOf(s).symbols, sched), SortedDraws(s), s.windows, sched)
  {
    hide DrawAs, KeysDistinct, Resolved;
    SortedResolved(s);
    DrawIdsPermuted(s, policy);
    forall i | 0 <= i < |SortedDraws(s)|
      ensures DrawAs(VariablesOf(s), BaseBits(VariablesOf(s).symbols, sched), SortedDraws(s)[i].id, s.windows,
                     SlotOf(sched, SortedDraws(s)[i].id))
    {
      BaseBitsSlot(s, policy, sched, i);
    }
  }

  // ---------------------------------------------------------------------------
  // Filling in the slack
  // ---------------------------------------------------------------------------

  /** The bitstrings agree below `n`. */
  ghost predicate Agree(x: Bits, y: Bits, n: nat) {
    forall p: nat :: p < n ==> (On(x, p) <==> On(y, p))
  }

  lemma AgreeSelection(ms: seq<Member>, x: Bits, y: Bits, n: nat)
    requires MembersWithin(ms, n) && Agree(x, y, n)
    ensures Selection(ms, x) == Selection(ms, y)
  {
  }

  lemma AgreeSlack(x: Bits, y: Bits, from: nat, k: nat, n: nat)
    requires from + k <= n && Agree(x, y, n)
    ensures SlackBits(x, from, k) == SlackBits(y, from, k)
  {
  }

  lemma AgreeRepresents(v: Variables, x: Bits, y: Bits, draws: seq<Draw>, ws: seq<Window>, sched: Schedule, n: nat)
    requires BitsBelow(v, n) && Agree(x, y, n) && Represents(v, x, draws, ws, sched)
    ensures Represents(v, y, draws, ws, sched)
  {
    forall i | 0 <= i < |draws| ensures DrawAs(v, y, draws[i].id, ws, SlotOf(sched, draws[i].id)) {
      assert DrawAs(v, x, draws[i].id, ws, SlotOf(sched, draws[i].id));
    }
  }

  /** Appends, window by window, the slack that fills the load up to the cap. */
  function FillSlack(v: Variables, draws: seq<Draw>, ws: seq<Window>, x: Bits): (y: Bits)
    requires PositiveAmounts(draws) && PositiveCaps(ws)
  {
    if ws == [] then x
    else
      var y := FillSlack(v, draws, Front(ws), x);
      var ms, cap := Members(v, draws, Last(ws).id), Last(ws).liquidityCapMinor;
      MembersPositive(v, draws, Last(ws).id);
      SelectedLoadBounds(ms, y);
      if EncodingOf(ms, cap) == SlackEncoded && SelectedLoad(ms, y) <= cap
      then y + FillingSlack(NatAmounts(ms), cap, Selection(ms, y)) else y
  }

  lemma {:induction false} FillSlackKeeps(v: Variables, draws: seq<Draw>, ws: seq<Window>, x: Bits)
    requires PositiveAmounts(draws) && PositiveCaps(ws)
    ensures |FillSlack(v, draws, ws, x)| >= |x| && Agree(x, FillSlack(v, draws, ws, x), |x|)
  {
    if ws != [] { FillSlackKeeps(v, draws, Front(ws), x); }
  }

  lemma SlackHoldsAgree(st: BudgetState, v: Variables, draws: seq<Draw>, ws: seq<Window>, j: nat, policy: PenaltyPolicy,
                        x: Bits, y: Bits, n: nat)
    requires PositiveAmounts(draws) && PositiveCaps(ws) && j < |ws|
    requires Budgets(st, v, draws, ws[..j + 1], policy).refusals == []
    requires |Budgets(st, v, draws, ws[..j + 1], policy).symbols| <= n && Agree(x, y, n)
    requires MembersWithin(Members(v, draws, ws[j].id), n)
    ensures CapHolds(v, draws, ws, j, x) <==> CapHolds(v, draws, ws, j, y)
    ensures SlackHolds(st, v, draws, ws, j, policy, x) <==> SlackHolds(st, v, draws, ws, j, policy, y)
  {
    var ms, cap := Members(v, draws, ws[j].id), ws[j].liquidityCapMinor;
    AgreeSelection(ms, x, y, n);
    assert Front(ws[..j + 1]) == ws[..j];
    MembersPositive(v, draws, ws[j].id);
    if EncodingOf(ms, cap) == SlackEncoded {
      var width := SlackWidth(NatAmounts(ms), cap);
      AgreeSlack(x, y, SlackStart(st, v, draws, ws, j, policy), width, n);
    }
  }

  lemma {:induction false} WindowsHoldAgree(st: BudgetState, v: Variables, draws: seq<Draw>, ws: seq<Window>, J: nat,
                                           policy: PenaltyPolicy, x: Bits, y: Bits, n: nat)
    requires PositiveAmounts(draws) && PositiveCaps(ws) && J <= |ws|
    requires Budgets(st, v, draws, ws[..J], policy).refusals == []
    requires BitsBelow(v, n) && |Budgets(st, v, draws, ws[..J], policy).symbols| <= n && Agree(x, y, n)
    requires WindowsHold(st, v, draws, ws, J, policy, x)
    ensures WindowsHold(st, v, draws, ws, J, policy, y)
  {
    hide CapHolds, SlackHolds, Agree;
    if J > 0 {
      BudgetsPrefix(st, v, draws, ws, J - 1, policy);
      WindowsHoldAgree(st, v, draws, ws, J - 1, policy, x, y, n);
      MembersBelow(v, draws, ws[J - 1].id, n);
      SlackHoldsAgree(st, v, draws, ws, J - 1, policy, x, y, n);
    }
  }

  lemma BudgetsPrefix(st: BudgetState, v: Variables, draws: seq<Draw>, ws: seq<Window>, j: nat, policy: PenaltyPolicy)
    requires PositiveAmounts(draws) && PositiveCaps(ws) && j < |ws|
    ensures var before, after := Budgets(st, v, draws, ws[..j], policy), Budgets(st, v, draws, ws[..j + 1], policy);
            before.refusals <= after.refusals && |before.symbols| <= |after.symbols|
  {
    assert Front(ws[..j + 1]) == ws[..j];
    MembersPositive(v, draws, ws[j].id);
    BudgetStepExtends(Budgets(st, v, draws, ws[..j], policy), Members(v, draws, ws[j].id), ws[j], policy);
  }

  lemma FillSlackStep(st: BudgetState, v: Variables, draws: seq<Draw>, ws: seq<Window>, j: nat, policy: PenaltyPolicy, x: Bits)
    requires PositiveAmounts(draws) && PositiveCaps(ws) && j < |ws|
    requires Budgets(st, v, draws, ws[..j + 1], policy).refusals == []
    requires MembersWithin(Members(v, draws, ws[j].id), |x|) && CapHolds(v, draws, ws, j, x)
    requires |FillSlack(v, draws, ws[..j], x)| == |Budgets(st, v, draws, ws[..j], policy).symbols|
    ensures var y := FillSlack(v, draws, ws[..j + 1], x);
            && |y| == |Budgets(st, v, draws, ws[..j + 1], policy).symbols|
            && Agree(FillSlack(v, draws, ws[..j], x), y, |FillSlack(v, draws, ws[..j], x)|)
            && CapHolds(v, draws, ws, j, y) && SlackHolds(st, v, draws, ws, j, policy, y)
  {
    assert Front(ws[..j + 1]) == ws[..j];
    var ms, cap := Members(v, draws, ws[j].id), ws[j].liquidityCapMinor;
    var prev, y := FillSlack(v, draws, ws[..j], x), FillSlack(v, draws, ws[..j + 1], x);
    MembersPositive(v, draws, ws[j].id);
    FillSlackKeeps(v, draws, ws[..j], x);
    AgreeSelection(ms, x, prev, |x|);
    SelectedLoadBounds(ms, prev);
    hide SlackFills, SlackWidth, FillingSlack, SelectedLoad, EncodingOf;
    if EncodingOf(ms, cap) == SlackEncoded {
      FillOne(ms, cap, prev);
    } else {
      NothingToFill(ms, cap, |prev|, prev);
    }
  }

  lemma NothingToFill(ms: seq<Member>, cap: nat, from: nat, x: Bits)
    requires PositiveMembers(ms) && cap > 0 && EncodingOf(ms, cap) != SlackEncoded
    ensures SlackFills(ms, cap, from, x)
  {
  }

  lemma FillOne(ms: seq<Member>, cap: nat, prev: Bits)
    requires PositiveMembers(ms) && cap > 0 && MembersWithin(ms, |prev|)
    requires 0 <= SelectedLoad(ms, prev) <= cap
    ensures var y := prev + FillingSlack(NatAmounts(ms), cap, Selection(ms, prev));
            && |y| == |prev| + SlackWidth(NatAmounts(ms), cap)
            && SelectedLoad(ms, y) == SelectedLoad(ms, prev) && SlackFills(ms, cap, |prev|, y)
  {
    hide EncodingOf, SelectedTotal, SlackWidth;
    var fill := FillingSlack(NatAmounts(ms), cap, Selection(ms, prev));
    var y := prev + fill;
    AgreeSelection(ms, prev, y, |prev|);
    forall b: nat | b < |fill| ensures On(y, |prev| + b) == fill[b] {
      assert y[|prev| + b] == fill[b];
    }
    assert SlackBits(y, |prev|, |fill|) == fill;
  }

  lemma {:induction false} FillSlackFills(st: BudgetState, v: Variables, draws: seq<Draw>, ws: seq<Window>, J: nat,
                                         policy: PenaltyPolicy, x: Bits)
    requires PositiveAmounts(draws) && PositiveCaps(ws) && J <= |ws| && |x| == |st.symbols|
    requires Budgets(st, v, draws, ws[..J], policy).refusals == []
    requires BitsBelow(v, |x|) && forall j :: 0 <= j < |ws| ==> CapHolds(v, draws, ws, j, x)
    ensures |FillSlack(v, draws, ws[..J], x)| == |Budgets(st, v, draws, ws[..J], policy).symbols| >= |x|
    ensures WindowsHold(st, v, draws, ws, J, policy, FillSlack(v, draws, ws[..J], x))
  {
    hide CapHolds, SlackHolds, Agree;
    if J > 0 {
      BudgetsPrefix(st, v, draws, ws, J - 1, policy);
      FillSlackFills(st, v, draws, ws, J - 1, policy, x);
      MembersBelow(v, draws, ws[J - 1].id, |x|);
      FillSlackStep(st, v, draws, ws, J - 1, policy, x);
      var prev := FillSlack(v, draws, ws[..J - 1], x);
      WindowsHoldAgree(st, v, draws, ws, J - 1, policy, prev, FillSlack(v, draws, ws[..J], x), |prev|);
    }
  }

  // ---------------------------------------------------------------------------
  // The theorems
  // ---------------------------------------------------------------------------

  /** The bitstring of a schedule: its slots switched on and its slack filled. */
  function Encode(s: FrozenScenario, sched: Schedule): Bits
    requires PositiveAmounts(s.draws) && PositiveCaps(s.windows)
  {
    SortedDrawsPositive(s);
    FillSlack(VariablesOf(s), SortedDraws(s), s.windows, BaseBits(VariablesOf(s).symbols, sched))
  }

  lemma EncodeRepresents(s: FrozenScenario, policy: PenaltyPolicy, sched: Schedule)
    requires ValidScenario(s, policy) && PositiveAmounts(s.draws) && PositiveCaps(s.windows)
    requires KeysDistinct(s.draws, s.windows) && Feasible(s, sched)
    ensures Represents(VariablesOf(s), Encode(s, sched), SortedDraws(s), s.windows, sched)
  {
    hide Represents, Feasible, KeysDistinct, ValidScenario;
    var v, ds, x := VariablesOf(s), SortedDraws(s), BaseBits(VariablesOf(s).symbols, sched);
    SortedDrawsPositive(s);
    BaseBitsRepresent(s, policy, sched);
    NamedBitsBelow(ds, s.windows);
    FillSlackKeeps(v, ds, s.windows, x);
    AgreeRepresents(v, x, Encode(s, sched), ds, s.windows, sched, |x|);
  }

  lemma EncodeFillsSlack(s: FrozenScenario, policy: PenaltyPolicy, sched: Schedule)
    requires ValidScenario(s, policy) && PositiveAmounts(s.draws) && PositiveCaps(s.windows)
    requires KeysDistinct(s.draws, s.windows) && Feasible(s, sched)
    requires AfterBudgets(s, policy).refusals == []
    ensures |Encode(s, sched)| == |AfterBudgets(s, policy).symbols|
    ensures SlacksHold(s, policy, Encode(s, sched))
  {
    hide CapHolds, SlackHolds, Represents, KeysDistinct, ValidScenario;
    var v, ds, ws := VariablesOf(s), SortedDraws(s), s.windows;
    var x, st := BaseBits(v.symbols, sched), StateBeforeBudgets(s, policy);
    SortedDrawsPositive(s);
    NamedBitsBelow(ds, ws);
    BaseBitsRepresent(s, policy, sched);
    CapsAreLoads(s, x, sched);
    assert ws[..|ws|] == ws;
    FillSlackFills(st, v, ds, ws, |ws|, policy, x);
    WindowsHoldEach(st, v, ds, ws, |ws|, policy, Encode(s, sched));
  }

  /** Every feasible schedule has a bitstring that decodes to it and has exactly its cost as energy. */
  lemma FeasibleSchedulesEncoded(s: FrozenScenario, policy: PenaltyPolicy, sched: Schedule)
    requires Compile(s, policy).Compiled? && KeysDistinct(s.draws, s.windows) && Feasible(s, sched)
    requires PositiveAmounts(s.draws) && PositiveCaps(s.windows)
    ensures |Encode(s, sched)| == Compile(s, policy).artifact.N()
    ensures Decodes(Compile(s, policy).artifact.symbols, Encode(s, sched), s.draws, sched)
    ensures ArtifactEnergy(s, policy, Encode(s, sched)) == Cost(s, sched) as real
    ensures PenaltyFree(s, policy, Encode(s, sched))
  {
    hide Compile, Feasible, Represents, SlacksHold, ArtifactEnergy, Encode, KeysDistinct;
    CompiledMeans(s, policy);
    var x := Encode(s, sched);
    EncodeRepresents(s, policy, sched);
    EncodeFillsSlack(s, policy, sched);
    DecodingIsRepresenting(s, policy, x, sched);
    RepresentedMeaning(s, policy, x, sched);
    DecodedEnergy(s, policy, x, sched);
  }

  function AllDeferred(s: FrozenScenario): Schedule {
    map id | id in DrawIds(s.draws) :: Deferred
  }

  lemma {:induction false} NothingLoaded(draws: seq<Draw>, sched: Schedule, window: string)
    requires forall i :: 0 <= i < |draws| ==> SlotOf(sched, draws[i].id) == Deferred
    ensures WindowLoad(draws, sched, window) == 0
  {
    if draws != [] {
      assert Last(draws) == draws[|draws| - 1];
      NothingLoaded(Front(draws), sched, window);
    }
  }

  /** A zero-penalty bitstring always exists: everything deferred, slack equal to the cap. */
  lemma DeferralIsFeasible(s: FrozenScenario)
    requires PositiveCaps(s.windows)
    ensures Feasible(s, AllDeferred(s))
  {
    forall j | 0 <= j < |s.windows| ensures WindowLoad(s.draws, AllDeferred(s), s.windows[j].id) == 0 {
      NothingLoaded(s.draws, AllDeferred(s), s.windows[j].id);
    }
  }

  /** A bitstring that does not decode to a feasible schedule costs more than every feasible schedule. */
  lemma InfeasibleCostsMore(s: FrozenScenario, policy: PenaltyPolicy, x: Bits, sched: Schedule)
    requires Compile(s, policy).Compiled? && KeysDistinct(s.draws, s.windows) && Feasible(s, sched)
    requires forall other: Schedule ::
               Decodes(Compile(s, policy).artifact.symbols, x, s.draws, other) ==> !Feasible(s, other)
    ensures ArtifactEnergy(s, policy, x) > Cost(s, sched) as real
  {
    hide Decodes, Feasible, KeysDistinct, PenaltyFree, Encode;
    CompiledMeans(s, policy);
    FeasibleSchedulesEncoded(s, policy, sched);
    if PenaltyFree(s, policy, x) {
      var other := PenaltyFreeIsFeasible(s, policy, x);
    } else {
      PenaltyGap(s, policy, x, Encode(s, sched));
    }
  }

  /** A ground state: no bitstring of the artifact's width has less energy. */
  ghost predicate LeastEnergy(s: FrozenScenario, policy: PenaltyPolicy, x: Bits)
    requires Compile(s, policy).Compiled?
  {
    && |x| == Compile(s, policy).artifact.N()
    && forall y: Bits | |y| == Compile(s, policy).artifact.N() :: ArtifactEnergy(s, policy, x) <= ArtifactEnergy(s, policy, y)
  }

  /** Every bitstring of least energy decodes to a cheapest feasible schedule, and its energy is that schedule's cost. */
  lemma MeaningPreserved(s: FrozenScenario, policy: PenaltyPolicy, x: Bits) returns (sched: Schedule)
    requires Compile(s, policy).Compiled? && KeysDistinct(s.draws, s.windows) && LeastEnergy(s, policy, x)
    ensures Decodes(Compile(s, policy).artifact.symbols, x, s.draws, sched)
    ensures Optimal(s, sched) && ArtifactEnergy(s, policy, x) == Cost(s, sched) as real
  {
    hide Compile, Decodes, Feasible, KeysDistinct, PenaltyFree, Encode, ArtifactEnergy, Cost;
    CompiledMeans(s, policy);
    DeferralIsFeasible(s);
    FeasibleSchedulesEncoded(s, policy, AllDeferred(s));
    var base := Encode(s, AllDeferred(s));
    if !PenaltyFree(s, policy, x) {
      PenaltyGapInArtifact(s, policy, x, base);
    }
    sched := PenaltyFreeIsFeasible(s, policy, x);
    forall other: Schedule | Feasible(s, other) ensures Cost(s, sched) <= Cost(s, other) {
      FeasibleSchedulesEncoded(s, policy, other);
    }
  }

  lemma PenaltyGapInArtifact(s: FrozenScenario, policy: PenaltyPolicy, x: Bits, y: Bits)
    requires Compile(s, policy).Compiled? && KeysDistinct(s.draws, s.windows)
    requires PositiveAmounts(s.draws) && PositiveCaps(s.windows)
    requires !PenaltyFree(s, policy, x) && PenaltyFree(s, policy, y)
    ensures ArtifactEnergy(s, policy, x) > ArtifactEnergy(s, policy, y)
  {
    PenaltyGap(s, policy, x, y);
  }

  /** `x` starts with `prefix`, has `n` bits and costs no more than any such bitstring. */
  ghost predicate LeastFrom(f: Bits -> real, prefix: Bits, n: nat, x: Bits) {
    |x| == n && prefix <= x && forall y: Bits :: |y| == n && prefix <= y ==> f(x) <= f(y)
  }

  /** Among the finitely many bitstrings of one length, some costs least. */
  lemma {:induction false} LeastExists(f: Bits -> real, prefix: Bits, n: nat) returns (x: Bits)
    requires |prefix| <= n
    ensures LeastFrom(f, prefix, n, x)
    decreases n - |prefix|
  {
    if |prefix| == n {
      x := prefix;
      forall y: Bits | |y| == n && prefix <= y ensures y == prefix { }
    } else {
      var a := LeastExists(f, prefix + [false], n);
      var b := LeastExists(f, prefix + [true], n);
      x := if f(a) <= f(b) then a else b;
      forall y: Bits | |y| == n && prefix <= y ensures f(x) <= f(y) {
        assert y[..|prefix| + 1] == prefix + [y[|prefix|]];
        if y[|prefix|] {
          assert prefix + [true] <= y && f(b) <= f(y);
        } else {
          assert prefix + [false] <= y && f(a) <= f(y);
        }
      }
    }
  }

  function EnergyIn(s: FrozenScenario, policy: PenaltyPolicy): Bits -> real
    requires Compile(s, policy).Compiled?
  {
    var q := Compile(s, policy).artifact.qubo;
    (y: Bits) => QuboEnergy(q, y)
  }

  /** Every artifact has a bitstring of least energy. */
  lemma GroundStateExists(s: FrozenScenario, policy: PenaltyPolicy) returns (x: Bits)
    requires Compile(s, policy).Compiled?
    ensures LeastEnergy(s, policy, x)
  {
    hide Compile, QuboEnergy;
    var f, n := EnergyIn(s, policy), Compile(s, policy).artifact.N();
    x := LeastExists(f, [], n);
    forall y: Bits | |y| == n ensures ArtifactEnergy(s, policy, x) <= ArtifactEnergy(s, policy, y) {
      assert [] <= y && f(x) <= f(y);
    }
  }

  /** The least energy of an artifact is the least cost of a feasible schedule, and both are attained. */
  lemma LeastEnergyIsLeastCost(s: FrozenScenario, policy: PenaltyPolicy) returns (x: Bits, sched: Schedule)
    requires Compile(s, policy).Compiled? && KeysDistinct(s.draws, s.windows)
    ensures LeastEnergy(s, policy, x) && Optimal(s, sched)
    ensures Decodes(Compile(s, policy).artifact.symbols, x, s.draws, sched)
    ensures ArtifactEnergy(s, policy, x) == Cost(s, sched) as real
    ensures forall y: Bits :: LeastEnergy(s, policy, y) ==> ArtifactEnergy(s, policy, y) == Cost(s, sched) as real
    ensures forall other: Schedule :: Optimal(s, other) ==> Cost(s, other) == Cost(s, sched)
  {
    hide Compile, Decodes, Feasible, KeysDistinct, ArtifactEnergy, Cost;
    x := GroundStateExists(s, policy);
    sched := MeaningPreserved(s, policy, x);
  }

  /** Conversely, every cheapest feasible schedule is read off some bitstring of least energy. */
  lemma OptimaAreGroundStates(s: FrozenScenario, policy: PenaltyPolicy, sched: Schedule)
    requires Compile(s, policy).Compiled? && KeysDistinct(s.draws, s.windows) && Optimal(s, sched)
    requires PositiveAmounts(s.draws) && PositiveCaps(s.windows)
    ensures LeastEnergy(s, policy, Encode(s, sched))
    ensures Decodes(Compile(s, policy).artifact.symbols, Encode(s, sched), s.draws, sched)
  {
    hide Compile, Decodes, Feasible, KeysDistinct, PenaltyFree, Encode, ArtifactEnergy, Cost;
    FeasibleSchedulesEncoded(s, policy, sched);
    var x := Encode(s, sched);
    forall y: Bits | |y| == Compile(s, policy).artifact.N() ensures ArtifactEnergy(s, policy, x) <= ArtifactEnergy(s, policy, y) {
      if PenaltyFree(s, policy, y) {
        var other := PenaltyFreeIsFeasible(s, policy, y);
      } else {
        PenaltyGapInArtifact(s, policy, y, x);
      }
    }
  }

  // ---------------------------------------------------------------------------
  // Pruning
  // ---------------------------------------------------------------------------

  lemma {:induction false} PrunedAreDead(draws: seq<Draw>, ws: seq<Window>, p: Pruned)
    requires p in NameVariables(draws, ws).pruned
    ensures exists i, j :: 0 <= i < |draws| && 0 <= j < |ws| && p.draw == draws[i].id && p.window == ws[j].id
              && !Live(draws[i], ws[j])
  {
    var v := NameVariables(Front(draws), ws);
    if p in v.pruned {
      PrunedAreDead(Front(draws), ws, p);
      var i, j :| 0 <= i < |draws| - 1 && 0 <= j < |ws| && p.draw == Front(draws)[i].id && p.window == ws[j].id
                  && !Live(Front(draws)[i], ws[j]);
      assert Front(draws)[i] == draws[i];
    } else {
      var j := PrunedOfDraw(v, Last(draws), ws, p);
      assert p.draw == draws[|draws| - 1].id && p.window == ws[j].id && !Live(draws[|draws| - 1], ws[j]);
    }
  }

  lemma {:induction false} PrunedOfDraw(v: Variables, d: Draw, ws: seq<Window>, p: Pruned) returns (j: nat)
    requires p in NameXs(v, d, ws).pruned && p !in v.pruned
    ensures j < |ws| && p.draw == d.id && p.window == ws[j].id && !Live(d, ws[j])
  {
    var before := NameXs(v, d, Front(ws));
    if p in before.pruned {
      j := PrunedOfDraw(v, d, Front(ws), p);
    } else {
      j := |ws| - 1;
    }
  }

  lemma ArtifactPruned(s: FrozenScenario, policy: PenaltyPolicy)
    requires Compile(s, policy).Compiled?
    ensures Compile(s, policy).artifact.pruned == VariablesOf(s).pruned
  {
    CompiledMeans(s, policy);
  }

  lemma DeadNeverFeasible(s: FrozenScenario, policy: PenaltyPolicy, p: Pruned, sched: Schedule)
    requires ValidScenario(s, policy) && p in VariablesOf(s).pruned && Feasible(s, sched)
    ensures SlotOf(sched, p.draw) != In(p.window)
  {
    hide Feasible, ValidScenario, NameVariables, Live;
    var ds, ws := SortedDraws(s), s.windows;
    PrunedAreDead(ds, ws, p);
    var i, j :| 0 <= i < |ds| && 0 <= j < |ws| && p.draw == ds[i].id && p.window == ws[j].id && !Live(ds[i], ws[j]);
    SortKeepsElements(s.draws, DrawKey);
    assert ds[i] in s.draws;
    var k :| 0 <= k < |s.draws| && s.draws[k] == ds[i];
    if SlotOf(sched, p.draw) == In(p.window) {
      FeasibleIsLive(s, policy, sched, k, j);
    }
  }

  /** A pruned variable is never part of a feasible schedule. */
  lemma PrunedNeverFeasible(s: FrozenScenario, policy: PenaltyPolicy, p: Pruned, sched: Schedule)
    requires Compile(s, policy).Compiled? && p in Compile(s, policy).artifact.pruned && Feasible(s, sched)
    ensures SlotOf(sched, p.draw) != In(p.window)
  {
    hide Compile, Feasible;
    CompiledMeans(s, policy);
    ArtifactPruned(s, policy);
    DeadNeverFeasible(s, policy, p, sched);
  }
}
