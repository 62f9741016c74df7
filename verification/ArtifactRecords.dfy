/**
 * Everything a reader of an artifact is told, read off the scenario: the symbol
 * table, the pruned pairs, the constraint records and the energy swing; and
 * exactly which scenarios compile.
 */
module ArtifactRecords {
  import opened Sums
  import opened Ordering
  import opened QuadraticForm
  import opened Artifact
  import opened Slack
  import opened Scenario
  import opened CompilerSpec
  import opened Decomposition
  import opened Meaning
  import opened BudgetChoice

  // ---------------------------------------------------------------------------
  // The symbol table and the pruned pairs
  // ---------------------------------------------------------------------------

  /** The placements of a draw that are neither ineligible nor over the window's cap, in window order. */
  function Placements(d: Draw, ws: seq<Window>): seq<Symbol> {
    if ws == [] then []
    else Placements(d, Front(ws)) +
         if Last(ws).id in d.windowEligibility && d.amountMinor <= Last(ws).liquidityCapMinor then [XSymbol(d.id, Last(ws).id)] else []
  }

  /** Draw by draw its placements, then its deferral. */
  function SymbolList(ds: seq<Draw>, ws: seq<Window>): seq<Symbol> {
    if ds == [] then [] else SymbolList(Front(ds), ws) + Placements(Last(ds), ws) + [ZSymbol(Last(ds).id)]
  }

  function PrunedFor(d: Draw, w: Window): seq<Pruned> {
    if w.id in d.windowEligibility
    then if d.amountMinor <= w.liquidityCapMinor then [] else [Pruned(d.id, w.id, AmountExceedsWindowCap)]
    else [Pruned(d.id, w.id, WindowNotEligible)]
  }

  function PrunedOf(d: Draw, ws: seq<Window>): seq<Pruned> {
    if ws == [] then [] else PrunedOf(d, Front(ws)) + PrunedFor(d, Last(ws))
  }

  /** Draw by draw, window by window, what has no bit and why. */
  function PrunedList(ds: seq<Draw>, ws: seq<Window>): seq<Pruned> {
    if ds == [] then [] else PrunedList(Front(ds), ws) + PrunedOf(Last(ds), ws)
  }

  lemma {:induction false} DrawListed(v: Variables, d: Draw, ws: seq<Window>)
    ensures NameXs(v, d, ws).symbols == v.symbols + Placements(d, ws)
    ensures NameXs(v, d, ws).pruned == v.pruned + PrunedOf(d, ws)
  {
    if ws != [] { DrawListed(v, d, Front(ws)); }
  }

  lemma {:induction false} VariablesListed(ds: seq<Draw>, ws: seq<Window>)
    ensures NameVariables(ds, ws).symbols == SymbolList(ds, ws)
    ensures NameVariables(ds, ws).pruned == PrunedList(ds, ws)
  {
    if ds != [] {
      VariablesListed(Front(ds), ws);
      DrawListed(NameVariables(Front(ds), ws), Last(ds), ws);
    }
  }

  // ---------------------------------------------------------------------------
  // Bits, as a reader of the symbol table finds them
  // ---------------------------------------------------------------------------

  predicate Keyed(sym: Symbol, key: string) {
    sym.XSymbol? && sym.draw + "|" + sym.window == key
  }

  /** The last placement with that joined key. */
  ghost predicate PlacementBit(symbols: seq<Symbol>, key: string, p: nat) {
    p < |symbols| && Keyed(symbols[p], key) && forall q :: p < q < |symbols| ==> !Keyed(symbols[q], key)
  }

  ghost predicate DeferralBit(symbols: seq<Symbol>, id: string, p: nat) {
    p < |symbols| && symbols[p] == ZSymbol(id) && forall q :: p < q < |symbols| ==> symbols[q] != ZSymbol(id)
  }

  predicate LooksUp(m: map<string, nat>, key: string, p: nat) {
    key in m && m[key] == p
  }

  /** The compiler's lookups find the bits a reader finds. */
  ghost predicate Readable(v: Variables) {
    && (forall key, p: nat :: LooksUp(v.xBit, key, p) <==> PlacementBit(v.symbols, key, p))
    && (forall id, p: nat :: LooksUp(v.zBit, id, p) <==> DeferralBit(v.symbols, id, p))
  }

  lemma PlacementAdded(symbols: seq<Symbol>, sym: Symbol, key: string, p: nat)
    ensures PlacementBit(symbols + [sym], key, p)
       <==> if Keyed(sym, key) then p == |symbols| else PlacementBit(symbols, key, p)
  {
    var more := symbols + [sym];
    assert more[|symbols|] == sym;
    assert forall q :: 0 <= q < |symbols| ==> more[q] == symbols[q];
  }

  lemma DeferralAdded(symbols: seq<Symbol>, sym: Symbol, id: string, p: nat)
    ensures DeferralBit(symbols + [sym], id, p)
       <==> if sym == ZSymbol(id) then p == |symbols| else DeferralBit(symbols, id, p)
  {
    var more := symbols + [sym];
    assert more[|symbols|] == sym;
    assert forall q :: 0 <= q < |symbols| ==> more[q] == symbols[q];
  }

  lemma NameXReadable(v: Variables, d: Draw, w: Window)
    requires Readable(v)
    ensures Readable(NameX(v, d, w))
  {
    hide PlacementBit, DeferralBit;
    var r, sym := NameX(v, d, w), XSymbol(d.id, w.id);
    if w.id in d.windowEligibility && d.amountMinor <= w.liquidityCapMinor {
      forall key, p: nat ensures LooksUp(r.xBit, key, p) <==> PlacementBit(r.symbols, key, p) {
        PlacementAdded(v.symbols, sym, key, p);
      }
      forall id, p: nat ensures LooksUp(r.zBit, id, p) <==> DeferralBit(r.symbols, id, p) {
        DeferralAdded(v.symbols, sym, id, p);
      }
    }
  }

  lemma NameZReadable(v: Variables, d: Draw)
    requires Readable(v)
    ensures Readable(NameZ(v, d))
  {
    hide PlacementBit, DeferralBit;
    var r, sym := NameZ(v, d), ZSymbol(d.id);
    forall key, p: nat ensures LooksUp(r.xBit, key, p) <==> PlacementBit(r.symbols, key, p) {
      PlacementAdded(v.symbols, sym, key, p);
    }
    forall id, p: nat ensures LooksUp(r.zBit, id, p) <==> DeferralBit(r.symbols, id, p) {
      DeferralAdded(v.symbols, sym, id, p);
    }
  }

  lemma {:induction false} NameXsReadable(v: Variables, d: Draw, ws: seq<Window>)
    requires Readable(v)
    ensures Readable(NameXs(v, d, ws))
  {
    hide Readable, NameX;
    if ws != [] {
      NameXsReadable(v, d, Front(ws));
      NameXReadable(NameXs(v, d, Front(ws)), d, Last(ws));
    }
  }

  /** Also where joined keys collide: the lookups find the last placement of a key. */
  lemma {:induction false} VariablesReadable(ds: seq<Draw>, ws: seq<Window>)
    ensures Readable(NameVariables(ds, ws))
  {
    if ds != [] {
      hide Readable, NameXs, NameZ;
      VariablesReadable(Front(ds), ws);
      NameXsReadable(NameVariables(Front(ds), ws), Last(ds), ws);
      NameZReadable(NameXs(NameVariables(Front(ds), ws), Last(ds), ws), Last(ds));
    }
  }

  ghost predicate AllSlack(symbols: seq<Symbol>) {
    forall p :: 0 <= p < |symbols| ==> symbols[p].SlackSymbol?
  }

  lemma SlackHidesNothing(symbols: seq<Symbol>, slack: seq<Symbol>, key: string, p: nat)
    requires AllSlack(slack)
    ensures PlacementBit(symbols + slack, key, p) <==> PlacementBit(symbols, key, p)
    ensures DeferralBit(symbols + slack, key, p) <==> DeferralBit(symbols, key, p)
  {
    var more := symbols + slack;
    assert forall q :: 0 <= q < |symbols| ==> more[q] == symbols[q];
    assert forall q :: |symbols| <= q < |more| ==> more[q] == slack[q - |symbols|];
  }

  ghost predicate Found(symbols: seq<Symbol>, key: string) {
    exists p: nat :: PlacementBit(symbols, key, p)
  }

  lemma FindsPlacement(v: Variables, draw: string, window: string)
    requires Readable(v)
    ensures HasX(v, draw, window) <==> Found(v.symbols, draw + "|" + window)
    ensures forall p: nat :: HasX(v, draw, window) && XBit(v, draw, window) == p <==> PlacementBit(v.symbols, draw + "|" + window, p)
  {
    hide PlacementBit, DeferralBit;
    var key := BitKey(draw, window);
    assert forall p: nat :: LooksUp(v.xBit, key, p) <==> PlacementBit(v.symbols, key, p);
    if HasX(v, draw, window) { assert LooksUp(v.xBit, key, XBit(v, draw, window)); }
  }

  // ---------------------------------------------------------------------------
  // The energy swing
  // ---------------------------------------------------------------------------

  /** The first cost listed for the window, zero where none is. */
  lemma {:induction false} DelayListed(es: seq<DelayEntry>, window: string)
    ensures (forall k :: 0 <= k < |es| ==> es[k].window != window) ==> Delay(es, window) == 0
    ensures forall k :: 0 <= k < |es| && es[k].window == window && (forall l :: 0 <= l < k ==> es[l].window != window)
              ==> Delay(es, window) == es[k].cost
  {
    if es != [] {
      DelayListed(es[1..], window);
      if es[0].window != window {
        forall k | 0 <= k < |es| && es[k].window == window && (forall l :: 0 <= l < k ==> es[l].window != window)
          ensures Delay(es, window) == es[k].cost
        {
          var tail := es[1..];
          assert tail[k - 1] == es[k] && forall l :: 0 <= l < k - 1 ==> tail[l] == es[l + 1];
        }
      }
    }
  }

  ghost function PlacementSwing(symbols: seq<Symbol>, d: Draw): Window -> int {
    (w: Window) => if Found(symbols, d.id + "|" + w.id) then Abs(Delay(d.delayCost, w.id) - d.utility) else 0
  }

  /** The absolute costs of everything a draw may do. */
  ghost function DrawSwing(symbols: seq<Symbol>, ws: seq<Window>): Draw -> int {
    (d: Draw) => SumOver(ws, PlacementSwing(symbols, d)) + Abs(d.deferralCost)
  }

  ghost function SharedSwing(symbols: seq<Symbol>, c: Concentration): Window -> int {
    (w: Window) => if Found(symbols, c.left + "|" + w.id) && Found(symbols, c.right + "|" + w.id) then c.weight else 0
  }

  /** A pair's weight, once for every window both its draws may be placed in. */
  ghost function CrowdingSwing(symbols: seq<Symbol>, ws: seq<Window>): Concentration -> int {
    (c: Concentration) => SumOver(ws, SharedSwing(symbols, c))
  }

  lemma {:induction false} PlacementWeight(v: Variables, d: Draw, ws: seq<Window>)
    requires Readable(v)
    ensures StepsWeight(PlacementSteps(v, d, ws)) == SumOver(ws, PlacementSwing(v.symbols, d))
  {
    hide Readable, Found, HasX;
    if ws != [] {
      PlacementWeight(v, d, Front(ws));
      var rest, w := PlacementSteps(v, d, Front(ws)), Last(ws);
      FindsPlacement(v, d.id, w.id);
      if HasX(v, d.id, w.id) {
        WeightOfOne(rest, Linear(XBit(v, d.id, w.id), PlacementCost(d, w.id)));
      } else {
        assert PlacementSteps(v, d, ws) == rest;
      }
    }
  }

  lemma WeightOfOne(rest: seq<Step>, step: Step)
    ensures StepsWeight(rest + [step]) == StepsWeight(rest) + Abs(step.w)
  {
    assert Front(rest + [step]) == rest;
  }

  lemma {:induction false} ObjectiveWeight(v: Variables, ds: seq<Draw>, ws: seq<Window>)
    requires Readable(v) && Named(v, ds)
    ensures StepsWeight(ObjectiveSteps(v, ds, ws)) == SumOver(ds, DrawSwing(v.symbols, ws))
  {
    hide Readable;
    if ds != [] {
      var d := Last(ds);
      ObjectiveWeight(v, Front(ds), ws);
      PlacementWeight(v, d, ws);
      WeightOfOne(PlacementSteps(v, d, ws), Linear(v.zBit[d.id], d.deferralCost));
      StepsWeightConcat(ObjectiveSteps(v, Front(ds), ws), DrawSteps(v, d, ws));
    }
  }

  lemma {:induction false} CrowdingWeighs(v: Variables, c: Concentration, ws: seq<Window>)
    requires Readable(v) && c.weight >= 0
    ensures StepsWeight(CrowdingSteps(v, c, ws)) == SumOver(ws, SharedSwing(v.symbols, c))
  {
    hide Readable, Found, HasX;
    if ws != [] {
      CrowdingWeighs(v, c, Front(ws));
      var rest, w := CrowdingSteps(v, c, Front(ws)), Last(ws);
      FindsPlacement(v, c.left, w.id);
      FindsPlacement(v, c.right, w.id);
      if HasX(v, c.left, w.id) && HasX(v, c.right, w.id) {
        WeightOfOne(rest, Pair(XBit(v, c.left, w.id), XBit(v, c.right, w.id), c.weight));
      } else {
        assert CrowdingSteps(v, c, ws) == rest;
      }
    }
  }

  lemma {:induction false} WeightlessSwing(symbols: seq<Symbol>, c: Concentration, ws: seq<Window>)
    requires c.weight == 0
    ensures SumOver(ws, SharedSwing(symbols, c)) == 0
  {
    if ws != [] { WeightlessSwing(symbols, c, Front(ws)); }
  }

  lemma {:induction false} ConcentrationWeighs(v: Variables, cs: seq<Concentration>, ws: seq<Window>)
    requires Readable(v) && forall i :: 0 <= i < |cs| ==> cs[i].weight >= 0
    ensures StepsWeight(ConcentrationSteps(v, cs, ws)) == SumOver(cs, CrowdingSwing(v.symbols, ws))
  {
    hide Readable;
    if cs != [] {
      var rest, c := ConcentrationSteps(v, Front(cs), ws), Last(cs);
      ConcentrationWeighs(v, Front(cs), ws);
      if c.weight == 0 {
        WeightlessSwing(v.symbols, c, ws);
        assert ConcentrationSteps(v, cs, ws) == rest;
      } else {
        CrowdingWeighs(v, c, ws);
        StepsWeightConcat(rest, CrowdingSteps(v, c, ws));
      }
    }
  }

  /** The swing is the sum of all absolute costs and weights, over the lists as the scenario has them. */
  lemma SwingIs(s: FrozenScenario, policy: PenaltyPolicy)
    requires ValidScenario(s, policy)
    ensures var symbols := VariablesOf(s).symbols;
            DeltaOf(s) == SumOver(s.draws, DrawSwing(symbols, s.windows)) + SumOver(s.concentrationPairs, CrowdingSwing(symbols, s.windows))
  {
    var v, ds, cs, ws := VariablesOf(s), SortedDraws(s), SortedConcentration(s), s.windows;
    EveryDrawNamed(ds, ws);
    VariablesReadable(ds, ws);
    SortedPairsWeigh(s, policy);
    hide ValidScenario, ObjectiveSteps, ConcentrationSteps, DrawSwing, CrowdingSwing, SortBy, NameVariables, SumOver, Readable;
    ObjectiveWeight(v, ds, ws);
    ConcentrationWeighs(v, cs, ws);
    StepsWeightConcat(ObjectiveSteps(v, ds, ws), ConcentrationSteps(v, cs, ws));
    SortBySorts(s.draws, DrawKey);
    SortBySorts(s.concentrationPairs, ConcentrationKey);
    SumOverPermuted(ds, s.draws, DrawSwing(v.symbols, ws));
    SumOverPermuted(cs, s.concentrationPairs, CrowdingSwing(v.symbols, ws));
  }

  lemma SortedPairsWeigh(s: FrozenScenario, policy: PenaltyPolicy)
    requires ValidScenario(s, policy)
    ensures forall i :: 0 <= i < |SortedConcentration(s)| ==> SortedConcentration(s)[i].weight >= 0
  {
    SortKeepsElements(s.concentrationPairs, ConcentrationKey);
    var cs := SortedConcentration(s);
    forall i | 0 <= i < |cs| ensures cs[i].weight >= 0 {
      assert cs[i] in cs;
    }
  }

  // ---------------------------------------------------------------------------
  // The bits of each constraint
  // ---------------------------------------------------------------------------

  /** `p` is the bit of some placement of draw `id`. */
  ghost predicate PlacesDraw(symbols: seq<Symbol>, id: string, ws: seq<Window>, p: nat) {
    exists j :: 0 <= j < |ws| && PlacementBit(symbols, id + "|" + ws[j].id, p)
  }

  ghost function SlotBits(symbols: seq<Symbol>, id: string, ws: seq<Window>): set<nat> {
    set p: nat | p < |symbols| && (PlacesDraw(symbols, id, ws, p) || DeferralBit(symbols, id, p))
  }

  /** `after` can be placed in `ws[a]` and `before` no earlier, in `ws[b]`, and `p` is one of the two bits. */
  ghost predicate Inverts(symbols: seq<Symbol>, pr: Precedence, ws: seq<Window>, a: nat, b: nat, p: nat) {
    && a <= b < |ws|
    && Found(symbols, pr.after + "|" + ws[a].id) && Found(symbols, pr.before + "|" + ws[b].id)
    && (PlacementBit(symbols, pr.after + "|" + ws[a].id, p) || PlacementBit(symbols, pr.before + "|" + ws[b].id, p))
  }

  ghost predicate InSomeInversion(symbols: seq<Symbol>, pr: Precedence, ws: seq<Window>, p: nat) {
    exists a: nat, b: nat :: Inverts(symbols, pr, ws, a, b, p)
  }

  ghost function OrderBits(symbols: seq<Symbol>, pr: Precedence, ws: seq<Window>): set<nat> {
    set p: nat | p < |symbols| && InSomeInversion(symbols, pr, ws, p)
  }

  /** `p` places `ds[i]` in the window, and with another draw that can be placed there it would break the cap. */
  ghost predicate Clashes(symbols: seq<Symbol>, ds: seq<Draw>, w: Window, i: nat, k: nat, p: nat) {
    && i < |ds| && k < |ds| && i != k
    && PlacementBit(symbols, ds[i].id + "|" + w.id, p) && Found(symbols, ds[k].id + "|" + w.id)
    && ds[i].amountMinor + ds[k].amountMinor > w.liquidityCapMinor
  }

  ghost predicate InSomeClash(symbols: seq<Symbol>, ds: seq<Draw>, w: Window, p: nat) {
    exists i: nat, k: nat :: Clashes(symbols, ds, w, i, k, p)
  }

  ghost function ClashBits(symbols: seq<Symbol>, ds: seq<Draw>, w: Window): set<nat> {
    set p: nat | p < |symbols| && InSomeClash(symbols, ds, w, p)
  }

  ghost predicate PlacesInto(symbols: seq<Symbol>, ds: seq<Draw>, w: Window, p: nat) {
    exists i :: 0 <= i < |ds| && PlacementBit(symbols, ds[i].id + "|" + w.id, p)
  }

  ghost predicate SlackOf(sym: Symbol, id: string) {
    sym.SlackSymbol? && sym.window == id
  }

  ghost function LoadBits(symbols: seq<Symbol>, ds: seq<Draw>, w: Window): set<nat> {
    set p: nat | p < |symbols| && (PlacesInto(symbols, ds, w, p) || SlackOf(symbols[p], w.id))
  }

  lemma {:induction false} WindowBitsAre(v: Variables, d: Draw, ws: seq<Window>, p: nat)
    requires Readable(v)
    ensures p in WindowBits(v, d, ws) <==> PlacesDraw(v.symbols, d.id, ws, p)
  {
    hide Readable, PlacementBit, Found, HasX;
    if ws != [] {
      WindowBitsAre(v, d, Front(ws), p);
      FindsPlacement(v, d.id, Last(ws).id);
      if PlacesDraw(v.symbols, d.id, Front(ws), p) {
        var j :| 0 <= j < |ws| - 1 && PlacementBit(v.symbols, d.id + "|" + Front(ws)[j].id, p);
        assert PlacementBit(v.symbols, d.id + "|" + ws[j].id, p);
      }
      if PlacesDraw(v.symbols, d.id, ws, p) {
        var j :| 0 <= j < |ws| && PlacementBit(v.symbols, d.id + "|" + ws[j].id, p);
        if j < |ws| - 1 { assert PlacementBit(v.symbols, d.id + "|" + Front(ws)[j].id, p); }
      }
    }
  }

  lemma DrawBitsAre(v: Variables, d: Draw, ws: seq<Window>)
    requires Readable(v) && d.id in v.zBit
    ensures BitSet(DrawBits(v, d, ws)) == SlotBits(v.symbols, d.id, ws)
  {
    forall p: nat ensures p in BitSet(DrawBits(v, d, ws)) <==> p in SlotBits(v.symbols, d.id, ws) {
      WindowBitsAre(v, d, ws, p);
      assert LooksUp(v.zBit, d.id, p) <==> DeferralBit(v.symbols, d.id, p);
    }
  }

  /** `p` is a bit of some inversion of `ws[a]` with a window before position `k`. */
  ghost predicate InvertsBelow(symbols: seq<Symbol>, pr: Precedence, ws: seq<Window>, a: nat, k: nat, p: nat) {
    exists b: nat :: b < k && Inverts(symbols, pr, ws, a, b, p)
  }

  lemma {:induction false} ForbiddenWithAre(v: Variables, pr: Precedence, ws: seq<Window>, a: nat, k: nat, P: int, p: nat)
    requires Readable(v) && a < |ws| && k <= |ws| && HasX(v, pr.after, ws[a].id)
    ensures p in StepBits(ForbiddenWith(v, pr, ws, a, k, P)) <==> InvertsBelow(v.symbols, pr, ws, a, k, p)
  {
    if k > 0 {
      ForbiddenWithAre(v, pr, ws, a, k - 1, P, p);
      InversionAt(v, pr, ws, a, k - 1, p);
      assert InvertsBelow(v.symbols, pr, ws, a, k, p) <==> InvertsBelow(v.symbols, pr, ws, a, k - 1, p) || Inverts(v.symbols, pr, ws, a, k - 1, p) by {
        hide Inverts;
      }
      hide Readable, HasX, StepBits, Inverts, InvertsBelow;
      var rest := ForbiddenWith(v, pr, ws, a, k - 1, P);
      if HasX(v, pr.before, ws[k - 1].id) && a <= k - 1 {
        BitsOfOne(rest, Pair(XBit(v, pr.after, ws[a].id), XBit(v, pr.before, ws[k - 1].id), P));
      } else {
        assert ForbiddenWith(v, pr, ws, a, k, P) == rest;
      }
    }
  }

  lemma InversionAt(v: Variables, pr: Precedence, ws: seq<Window>, a: nat, b: nat, p: nat)
    requires Readable(v) && a < |ws| && b < |ws| && HasX(v, pr.after, ws[a].id)
    ensures Inverts(v.symbols, pr, ws, a, b, p)
       <==> a <= b && HasX(v, pr.before, ws[b].id) && (p == XBit(v, pr.after, ws[a].id) || p == XBit(v, pr.before, ws[b].id))
  {
    FindsPlacement(v, pr.after, ws[a].id);
    FindsPlacement(v, pr.before, ws[b].id);
    hide Readable, PlacementBit, Found;
  }

  lemma BitsOfOne(rest: seq<Step>, step: Step)
    requires step.Pair?
    ensures StepBits(rest + [step]) == StepBits(rest) + {step.p, step.q}
  {
    assert Front(rest + [step]) == rest;
  }

  lemma {:induction false} ForbiddenAre(v: Variables, pr: Precedence, ws: seq<Window>, A: nat, P: int, p: nat)
    requires Readable(v) && A <= |ws|
    ensures p in StepBits(ForbiddenSteps(v, pr, ws, A, P)) <==> exists a: nat :: a < A && InvertsBelow(v.symbols, pr, ws, a, |ws|, p)
  {
    hide Readable, PlacementBit, Found, HasX, InvertsBelow;
    if A > 0 {
      ForbiddenAre(v, pr, ws, A - 1, P, p);
      var rest := ForbiddenSteps(v, pr, ws, A - 1, P);
      FindsPlacement(v, pr.after, ws[A - 1].id);
      if HasX(v, pr.after, ws[A - 1].id) {
        ForbiddenWithAre(v, pr, ws, A - 1, |ws|, P, p);
        StepsWeightConcat(rest, ForbiddenWith(v, pr, ws, A - 1, |ws|, P));
      } else {
        NothingInverted(v.symbols, pr, ws, A - 1, p);
        assert ForbiddenSteps(v, pr, ws, A, P) == rest;
      }
    }
  }

  lemma NothingInverted(symbols: seq<Symbol>, pr: Precedence, ws: seq<Window>, a: nat, p: nat)
    requires a < |ws| && !Found(symbols, pr.after + "|" + ws[a].id)
    ensures !InvertsBelow(symbols, pr, ws, a, |ws|, p)
  {
  }

  lemma BitsInTable(symbols: seq<Symbol>, pr: Precedence, ws: seq<Window>, a: nat, b: nat, p: nat)
    requires Inverts(symbols, pr, ws, a, b, p)
    ensures p < |symbols|
  {
  }

  lemma OrderBitsAre(v: Variables, pr: Precedence, ws: seq<Window>, P: int)
    requires Readable(v)
    ensures StepBits(ForbiddenSteps(v, pr, ws, |ws|, P)) == OrderBits(v.symbols, pr, ws)
  {
    forall p: nat ensures p in StepBits(ForbiddenSteps(v, pr, ws, |ws|, P)) <==> p in OrderBits(v.symbols, pr, ws) {
      hide Readable, Inverts, StepBits, ForbiddenSteps;
      ForbiddenAre(v, pr, ws, |ws|, P, p);
      InversionInTable(v.symbols, pr, ws, p);
      if InSomeInversion(v.symbols, pr, ws, p) {
        var a: nat, b: nat :| Inverts(v.symbols, pr, ws, a, b, p);
        InversionWithin(v.symbols, pr, ws, a, b, p);
        assert InvertsBelow(v.symbols, pr, ws, a, |ws|, p);
      }
    }
  }

  lemma InversionWithin(symbols: seq<Symbol>, pr: Precedence, ws: seq<Window>, a: nat, b: nat, p: nat)
    requires Inverts(symbols, pr, ws, a, b, p)
    ensures a < |ws| && b < |ws|
  {
  }

  // ---------------------------------------------------------------------------
  // The bits of a budget constraint
  // ---------------------------------------------------------------------------

  predicate Overfills(ms: seq<Member>, cap: int, i: nat, k: nat) {
    i < k < |ms| && ms[i].amount + ms[k].amount > cap
  }

  /** `p` is a bit of some over-cap pair (i, k), k < j. */
  ghost predicate RowHit(ms: seq<Member>, cap: int, i: nat, j: nat, p: nat) {
    exists k: nat :: k < j && Overfills(ms, cap, i, k) && (p == ms[i].bit || p == ms[k].bit)
  }

  ghost predicate PairHit(ms: seq<Member>, cap: int, n: nat, p: nat) {
    exists i: nat :: i < n && RowHit(ms, cap, i, |ms|, p)
  }

  lemma {:induction false} RowBits(ms: seq<Member>, i: nat, j: nat, cap: int, P: int, p: nat)
    requires i < j <= |ms|
    ensures p in StepBits(OverCapRow(ms[i], ms[i + 1..j], cap, P)) <==> RowHit(ms, cap, i, j, p)
  {
    if j > i + 1 {
      RowBits(ms, i, j - 1, cap, P, p);
      hide StepBits;
      assert Front(ms[i + 1..j]) == ms[i + 1..j - 1];
      var rest := OverCapRow(ms[i], ms[i + 1..j - 1], cap, P);
      if Overfills(ms, cap, i, j - 1) {
        BitsOfOne(rest, Pair(ms[i].bit, ms[j - 1].bit, P));
      } else {
        assert OverCapRow(ms[i], ms[i + 1..j], cap, P) == rest;
      }
    }
  }

  lemma {:induction false} PairBits(ms: seq<Member>, n: nat, cap: int, P: int, p: nat)
    requires n <= |ms|
    ensures p in StepBits(OverCapPairs(ms, n, cap, P)) <==> PairHit(ms, cap, n, p)
  {
    if n > 0 {
      PairBits(ms, n - 1, cap, P, p);
      RowBits(ms, n - 1, |ms|, cap, P, p);
      assert ms[n..|ms|] == ms[n..];
      StepsWeightConcat(OverCapPairs(ms, n - 1, cap, P), OverCapRow(ms[n - 1], ms[n..], cap, P));
      hide StepBits, OverCapRow, RowHit;
    }
  }

  lemma {:induction false} MemberOf(v: Variables, ds: seq<Draw>, window: string, i: nat) returns (a: nat)
    requires i < |Members(v, ds, window)|
    ensures a < |ds| && HasX(v, ds[a].id, window) && |Members(v, ds[..a], window)| == i
    ensures Members(v, ds, window)[i] == Member(ds[a].amountMinor, XBit(v, ds[a].id, window))
  {
    var rest := Members(v, Front(ds), window);
    if i < |rest| {
      a := MemberOf(v, Front(ds), window, i);
      assert Front(ds)[..a] == ds[..a];
    } else {
      a := |ds| - 1;
      assert Front(ds) == ds[..a];
    }
  }

  lemma {:induction false} MemberFor(v: Variables, ds: seq<Draw>, window: string, a: nat) returns (i: nat)
    requires a < |ds| && HasX(v, ds[a].id, window)
    ensures i == |Members(v, ds[..a], window)| < |Members(v, ds, window)|
    ensures Members(v, ds, window)[i] == Member(ds[a].amountMinor, XBit(v, ds[a].id, window))
  {
    if a < |ds| - 1 {
      i := MemberFor(v, Front(ds), window, a);
      assert Front(ds)[..a] == ds[..a];
    } else {
      assert Front(ds) == ds[..a];
      i := |Members(v, Front(ds), window)|;
    }
  }

  lemma MembersApart(v: Variables, ds: seq<Draw>, window: string, a: nat, b: nat)
    requires a < b < |ds| && HasX(v, ds[a].id, window)
    ensures |Members(v, ds[..a], window)| < |Members(v, ds[..b], window)|
  {
    assert ds[..b][..a] == ds[..a] && ds[..b][a] == ds[a];
    var i := MemberFor(v, ds[..b], window, a);
  }

  lemma ClashOfPair(v: Variables, ds: seq<Draw>, w: Window, i: nat, k: nat, p: nat)
    requires Readable(v) && Overfills(Members(v, ds, w.id), w.liquidityCapMinor, i, k)
    requires p == Members(v, ds, w.id)[i].bit || p == Members(v, ds, w.id)[k].bit
    ensures InSomeClash(v.symbols, ds, w, p)
  {
    hide Members, Readable, PlacementBit, Found;
    var a := MemberOf(v, ds, w.id, i);
    var b := MemberOf(v, ds, w.id, k);
    FindsPlacement(v, ds[a].id, w.id);
    FindsPlacement(v, ds[b].id, w.id);
    if p == Members(v, ds, w.id)[i].bit {
      assert Clashes(v.symbols, ds, w, a, b, p);
    } else {
      assert Clashes(v.symbols, ds, w, b, a, p);
    }
  }

  lemma PairOfClash(v: Variables, ds: seq<Draw>, w: Window, a: nat, b: nat, p: nat) returns (i: nat, k: nat)
    requires Readable(v) && Clashes(v.symbols, ds, w, a, b, p)
    ensures Overfills(Members(v, ds, w.id), w.liquidityCapMinor, i, k)
    ensures p == Members(v, ds, w.id)[i].bit || p == Members(v, ds, w.id)[k].bit
  {
    hide Members, Readable, PlacementBit, Found;
    FindsPlacement(v, ds[a].id, w.id);
    FindsPlacement(v, ds[b].id, w.id);
    i := MemberFor(v, ds, w.id, a);
    k := MemberFor(v, ds, w.id, b);
    if a < b {
      MembersApart(v, ds, w.id, a, b);
    } else {
      MembersApart(v, ds, w.id, b, a);
      i, k := k, i;
    }
  }

  lemma ClashBitsAre(v: Variables, ds: seq<Draw>, w: Window, P: int)
    requires Readable(v)
    ensures var ms := Members(v, ds, w.id);
            StepBits(OverCapPairs(ms, |ms|, w.liquidityCapMinor, P)) == ClashBits(v.symbols, ds, w)
  {
    hide Members, Readable, PlacementBit, Found, OverCapPairs, StepBits;
    var ms, cap := Members(v, ds, w.id), w.liquidityCapMinor;
    forall p: nat ensures p in StepBits(OverCapPairs(ms, |ms|, cap, P)) <==> p in ClashBits(v.symbols, ds, w) {
      PairBits(ms, |ms|, cap, P, p);
      if PairHit(ms, cap, |ms|, p) {
        var i: nat :| i < |ms| && RowHit(ms, cap, i, |ms|, p);
        var k: nat :| k < |ms| && Overfills(ms, cap, i, k) && (p == ms[i].bit || p == ms[k].bit);
        ClashOfPair(v, ds, w, i, k, p);
      }
      if InSomeClash(v.symbols, ds, w, p) {
        var a: nat, b: nat :| Clashes(v.symbols, ds, w, a, b, p);
        var i, k := PairOfClash(v, ds, w, a, b, p);
        assert RowHit(ms, cap, i, |ms|, p);
        ClashInTable(v.symbols, ds, w, a, b, p);
      } else {
        assert p !in ClashBits(v.symbols, ds, w);
      }
    }
  }

  lemma ClashInTable(symbols: seq<Symbol>, ds: seq<Draw>, w: Window, a: nat, b: nat, p: nat)
    requires Clashes(symbols, ds, w, a, b, p)
    ensures p in ClashBits(symbols, ds, w)
  {
    assert InSomeClash(symbols, ds, w, p);
  }

  lemma {:induction false} TermBitsConcat(a: seq<Term>, b: seq<Term>)
    ensures TermBits(a + b) == TermBits(a) + TermBits(b)
  {
    if b == [] {
      assert a + b == a;
    } else {
      TermBitsConcat(a, Front(b));
      assert Front(a + b) == a + Front(b);
    }
  }

  lemma {:induction false} MemberTermBits(v: Variables, ds: seq<Draw>, w: Window, unit: nat, p: nat)
    requires Readable(v) && unit > 0 && PositiveMembers(Members(v, ds, w.id))
    ensures p in TermBits(MemberTerms(Members(v, ds, w.id), unit)) <==> PlacesInto(v.symbols, ds, w, p)
  {
    hide Readable, PlacementBit, Found, HasX;
    if ds != [] {
      var rest, ms := Members(v, Front(ds), w.id), Members(v, ds, w.id);
      PlacesOneMore(v.symbols, ds, w, p);
      FindsPlacement(v, Last(ds).id, w.id);
      if HasX(v, Last(ds).id, w.id) {
        assert Front(ms) == rest;
        assert PositiveMembers(rest);
        MemberTermBits(v, Front(ds), w, unit, p);
        assert Front(MemberTerms(ms, unit)) == MemberTerms(rest, unit);
      } else {
        assert ms == rest;
        MemberTermBits(v, Front(ds), w, unit, p);
      }
    }
  }

  lemma PlacesOneMore(symbols: seq<Symbol>, ds: seq<Draw>, w: Window, p: nat)
    requires ds != []
    ensures PlacesInto(symbols, ds, w, p) <==> PlacesInto(symbols, Front(ds), w, p) || PlacementBit(symbols, Last(ds).id + "|" + w.id, p)
  {
    hide PlacementBit;
    assert forall i :: 0 <= i < |ds| - 1 ==> Front(ds)[i] == ds[i];
    if PlacesInto(symbols, Front(ds), w, p) {
      var i :| 0 <= i < |ds| - 1 && PlacementBit(symbols, Front(ds)[i].id + "|" + w.id, p);
      assert PlacementBit(symbols, ds[i].id + "|" + w.id, p);
    }
    if PlacesInto(symbols, ds, w, p) {
      var i :| 0 <= i < |ds| && PlacementBit(symbols, ds[i].id + "|" + w.id, p);
      if i < |ds| - 1 { assert PlacementBit(symbols, Front(ds)[i].id + "|" + w.id, p); }
    }
  }

  lemma {:induction false} SlackTermBits(from: nat, k: nat, p: nat)
    ensures p in TermBits(SlackTerms(from, k)) <==> from <= p < from + k
  {
    if k > 0 {
      SlackTermBits(from, k - 1, p);
      assert Front(SlackTerms(from, k)) == SlackTerms(from, k - 1);
    }
  }

  // ---------------------------------------------------------------------------
  // The constraint list
  // ---------------------------------------------------------------------------

  /** One record per draw. */
  ghost function CardinalityRecords(symbols: seq<Symbol>, ds: seq<Draw>, ws: seq<Window>, P: int, delta: int): seq<Constraint> {
    if ds == [] then []
    else CardinalityRecords(symbols, Front(ds), ws, P, delta)
         + [Constraint("card[" + Last(ds).id + "]", Cardinality, P, delta, 1, SlotBits(symbols, Last(ds).id, ws))]
  }

  /** One record per precedence pair that forbids anything. */
  ghost function PrecedenceRecords(symbols: seq<Symbol>, ps: seq<Precedence>, ws: seq<Window>, P: int, delta: int): seq<Constraint> {
    if ps == [] then []
    else
      var bits := OrderBits(symbols, Last(ps), ws);
      PrecedenceRecords(symbols, Front(ps), ws, P, delta) +
      if bits == {} then []
      else [Constraint("prec[" + Last(ps).before + "<" + Last(ps).after + "]", PrecedenceKind, P, delta, 1, bits)]
  }

  ghost function BudgetRecord(symbols: seq<Symbol>, encodings: map<string, Encoding>, ds: seq<Draw>, w: Window, P: int, delta: int):
    seq<Constraint>
  {
    if w.id !in encodings then []
    else
      match encodings[w.id]
      case NoBudget => []
      case PairPruned => [Constraint("budget[" + w.id + "]", BudgetPair, P, delta, 1, ClashBits(symbols, ds, w))]
      case SlackEncoded => [Constraint("budget[" + w.id + "]", BudgetSlack, P, delta, 1, LoadBits(symbols, ds, w))]
  }

  /** One record per window with a budget. */
  ghost function BudgetRecords(symbols: seq<Symbol>, encodings: map<string, Encoding>, ds: seq<Draw>, ws: seq<Window>, P: int, delta: int):
    seq<Constraint>
  {
    if ws == [] then []
    else BudgetRecords(symbols, encodings, ds, Front(ws), P, delta) + BudgetRecord(symbols, encodings, ds, Last(ws), P, delta)
  }

  lemma {:induction false} CardinalityRecorded(v: Variables, ds: seq<Draw>, ws: seq<Window>, P: int)
    requires Readable(v) && Named(v, ds)
    ensures CardinalityConstraints(v, ds, ws, P) == CardinalityRecords(v.symbols, ds, ws, P, 0)
  {
    hide Readable, SlotBits, DrawBits, BitSet;
    if ds != [] {
      CardinalityRecorded(v, Front(ds), ws, P);
      DrawBitsAre(v, Last(ds), ws);
    }
  }

  lemma {:induction false} PrecedenceRecorded(v: Variables, ps: seq<Precedence>, ws: seq<Window>, P: int)
    requires Readable(v)
    ensures PrecedenceConstraints(v, ps, ws, P) == PrecedenceRecords(v.symbols, ps, ws, P, 0)
  {
    hide Readable, OrderBits, StepBits, ForbiddenSteps;
    if ps != [] {
      PrecedenceRecorded(v, Front(ps), ws, P);
      OrderBitsAre(v, Last(ps), ws, P);
    }
  }

  lemma FoundWithSlack(symbols: seq<Symbol>, slack: seq<Symbol>, key: string)
    requires AllSlack(slack)
    ensures Found(symbols + slack, key) <==> Found(symbols, key)
  {
    hide PlacementBit;
    if Found(symbols, key) {
      var p: nat :| PlacementBit(symbols, key, p);
      SlackHidesNothing(symbols, slack, key, p);
    }
    if Found(symbols + slack, key) {
      var p: nat :| PlacementBit(symbols + slack, key, p);
      SlackHidesNothing(symbols, slack, key, p);
    }
  }

  lemma SlotBitsStay(symbols: seq<Symbol>, slack: seq<Symbol>, id: string, ws: seq<Window>)
    requires AllSlack(slack)
    ensures SlotBits(symbols + slack, id, ws) == SlotBits(symbols, id, ws)
  {
    forall p: nat ensures p in SlotBits(symbols + slack, id, ws) <==> p in SlotBits(symbols, id, ws) {
      forall j | 0 <= j < |ws|
        ensures PlacementBit(symbols + slack, id + "|" + ws[j].id, p) <==> PlacementBit(symbols, id + "|" + ws[j].id, p)
      {
        SlackHidesNothing(symbols, slack, id + "|" + ws[j].id, p);
      }
      SlackHidesNothing(symbols, slack, id, p);
    }
  }

  lemma InversionStays(symbols: seq<Symbol>, slack: seq<Symbol>, pr: Precedence, ws: seq<Window>, a: nat, b: nat, p: nat)
    requires AllSlack(slack)
    ensures Inverts(symbols + slack, pr, ws, a, b, p) <==> Inverts(symbols, pr, ws, a, b, p)
  {
    hide AllSlack, PlacementBit, Found;
    if a <= b < |ws| {
      var after, before := pr.after + "|" + ws[a].id, pr.before + "|" + ws[b].id;
      FoundWithSlack(symbols, slack, after);
      FoundWithSlack(symbols, slack, before);
      SlackHidesNothing(symbols, slack, after, p);
      SlackHidesNothing(symbols, slack, before, p);
    }
  }

  lemma InversionInTable(symbols: seq<Symbol>, pr: Precedence, ws: seq<Window>, p: nat)
    ensures p in OrderBits(symbols, pr, ws) <==> InSomeInversion(symbols, pr, ws, p)
  {
    if a: nat, b: nat :| Inverts(symbols, pr, ws, a, b, p) { BitsInTable(symbols, pr, ws, a, b, p); }
  }

  lemma OrderBitsStay(symbols: seq<Symbol>, slack: seq<Symbol>, pr: Precedence, ws: seq<Window>)
    requires AllSlack(slack)
    ensures OrderBits(symbols + slack, pr, ws) == OrderBits(symbols, pr, ws)
  {
    forall p: nat ensures p in OrderBits(symbols + slack, pr, ws) <==> p in OrderBits(symbols, pr, ws) {
      InversionInTable(symbols, pr, ws, p);
      InversionInTable(symbols + slack, pr, ws, p);
      hide OrderBits, AllSlack, Inverts;
      if a: nat, b: nat :| Inverts(symbols, pr, ws, a, b, p) { InversionStays(symbols, slack, pr, ws, a, b, p); }
      if a: nat, b: nat :| Inverts(symbols + slack, pr, ws, a, b, p) { InversionStays(symbols, slack, pr, ws, a, b, p); }
    }
  }

  lemma ClashStays(symbols: seq<Symbol>, slack: seq<Symbol>, ds: seq<Draw>, w: Window, i: nat, k: nat, p: nat)
    requires AllSlack(slack)
    ensures Clashes(symbols + slack, ds, w, i, k, p) <==> Clashes(symbols, ds, w, i, k, p)
  {
    hide AllSlack, PlacementBit, Found;
    if i < |ds| && k < |ds| {
      FoundWithSlack(symbols, slack, ds[k].id + "|" + w.id);
      SlackHidesNothing(symbols, slack, ds[i].id + "|" + w.id, p);
    }
  }

  lemma ClashBitsStay(symbols: seq<Symbol>, slack: seq<Symbol>, ds: seq<Draw>, w: Window)
    requires AllSlack(slack)
    ensures ClashBits(symbols + slack, ds, w) == ClashBits(symbols, ds, w)
  {
    forall p: nat ensures p in ClashBits(symbols + slack, ds, w) <==> p in ClashBits(symbols, ds, w) {
      if InSomeClash(symbols, ds, w, p) {
        var i: nat, k: nat :| Clashes(symbols, ds, w, i, k, p);
        ClashStays(symbols, slack, ds, w, i, k, p);
        ClashInTable(symbols, ds, w, i, k, p);
        ClashInTable(symbols + slack, ds, w, i, k, p);
      }
      if InSomeClash(symbols + slack, ds, w, p) {
        var i: nat, k: nat :| Clashes(symbols + slack, ds, w, i, k, p);
        ClashStays(symbols, slack, ds, w, i, k, p);
        ClashInTable(symbols, ds, w, i, k, p);
        ClashInTable(symbols + slack, ds, w, i, k, p);
      }
    }
  }

  lemma PlacesIntoStays(symbols: seq<Symbol>, slack: seq<Symbol>, ds: seq<Draw>, w: Window, p: nat)
    requires AllSlack(slack)
    ensures PlacesInto(symbols + slack, ds, w, p) <==> PlacesInto(symbols, ds, w, p)
  {
    forall i | 0 <= i < |ds|
      ensures PlacementBit(symbols + slack, ds[i].id + "|" + w.id, p) <==> PlacementBit(symbols, ds[i].id + "|" + w.id, p)
    {
      SlackHidesNothing(symbols, slack, ds[i].id + "|" + w.id, p);
    }
  }

  lemma LoadBitsStay(symbols: seq<Symbol>, slack: seq<Symbol>, ds: seq<Draw>, w: Window)
    requires AllSlack(slack) && forall p :: 0 <= p < |slack| ==> !SlackOf(slack[p], w.id)
    ensures LoadBits(symbols + slack, ds, w) == LoadBits(symbols, ds, w)
  {
    forall p: nat ensures p in LoadBits(symbols + slack, ds, w) <==> p in LoadBits(symbols, ds, w) {
      PlacesIntoStays(symbols, slack, ds, w, p);
      if |symbols| <= p < |symbols| + |slack| { assert (symbols + slack)[p] == slack[p - |symbols|]; }
    }
  }

  lemma {:induction false} CardinalityStays(symbols: seq<Symbol>, slack: seq<Symbol>, ds: seq<Draw>, ws: seq<Window>, P: int, delta: int)
    requires AllSlack(slack)
    ensures CardinalityRecords(symbols + slack, ds, ws, P, delta) == CardinalityRecords(symbols, ds, ws, P, delta)
  {
    hide AllSlack, SlotBits;
    if ds != [] {
      CardinalityStays(symbols, slack, Front(ds), ws, P, delta);
      SlotBitsStay(symbols, slack, Last(ds).id, ws);
    }
  }

  lemma {:induction false} PrecedenceStays(symbols: seq<Symbol>, slack: seq<Symbol>, ps: seq<Precedence>, ws: seq<Window>, P: int, delta: int)
    requires AllSlack(slack)
    ensures PrecedenceRecords(symbols + slack, ps, ws, P, delta) == PrecedenceRecords(symbols, ps, ws, P, delta)
  {
    hide AllSlack, OrderBits;
    if ps != [] {
      PrecedenceStays(symbols, slack, Front(ps), ws, P, delta);
      OrderBitsStay(symbols, slack, Last(ps), ws);
    }
  }

  lemma {:induction false} BudgetRecordsStay(symbols: seq<Symbol>, slack: seq<Symbol>, before: map<string, Encoding>, after: map<string, Encoding>,
                                             ds: seq<Draw>, ws: seq<Window>, P: int, delta: int)
    requires AllSlack(slack) && forall j, p :: 0 <= j < |ws| && 0 <= p < |slack| ==> !SlackOf(slack[p], ws[j].id)
    requires forall j :: 0 <= j < |ws| ==> (ws[j].id in before <==> ws[j].id in after)
    requires forall j :: 0 <= j < |ws| && ws[j].id in before ==> before[ws[j].id] == after[ws[j].id]
    ensures BudgetRecords(symbols + slack, after, ds, ws, P, delta) == BudgetRecords(symbols, before, ds, ws, P, delta)
  {
    hide AllSlack, ClashBits, LoadBits, SlackOf;
    if ws != [] {
      BudgetRecordsStay(symbols, slack, before, after, ds, Front(ws), P, delta);
      ClashBitsStay(symbols, slack, ds, Last(ws));
      LoadBitsStay(symbols, slack, ds, Last(ws));
    }
  }

  lemma {:induction false} SlackSymbolsAt(window: string, k: nat, b: nat)
    requires b < k
    ensures SlackSymbols(window, k)[b] == SlackSymbol(window, b)
  {
    if b < k - 1 { SlackSymbolsAt(window, k - 1, b); }
  }

  /** Slack bit number b of a window is the b-th bit behind the bits so far. */
  function SlackList(window: string, k: nat): seq<Symbol> {
    seq(k, b requires 0 <= b < k => SlackSymbol(window, b))
  }

  lemma SlackSymbolsAre(window: string, k: nat)
    ensures SlackSymbols(window, k) == SlackList(window, k) && AllSlack(SlackList(window, k))
    ensures forall p, id :: 0 <= p < k ==> (SlackOf(SlackList(window, k)[p], id) <==> id == window)
  {
    forall b | 0 <= b < k ensures SlackSymbols(window, k)[b] == SlackSymbol(window, b) { SlackSymbolsAt(window, k, b); }
  }

  ghost predicate NoSlack(symbols: seq<Symbol>) {
    forall p :: 0 <= p < |symbols| ==> !symbols[p].SlackSymbol?
  }

  ghost predicate NoSlackOf(symbols: seq<Symbol>, id: string) {
    forall p :: 0 <= p < |symbols| ==> !SlackOf(symbols[p], id)
  }

  lemma SlackPlaces(symbols: seq<Symbol>, id: string, k: nat, p: nat)
    requires NoSlackOf(symbols, id)
    ensures var more := symbols + SlackList(id, k);
            p < |more| && SlackOf(more[p], id) <==> |symbols| <= p < |symbols| + k
  {
    SlackSymbolsAre(id, k);
  }

  lemma PlacesIntoTable(symbols: seq<Symbol>, ds: seq<Draw>, w: Window, p: nat)
    ensures PlacesInto(symbols, ds, w, p) ==> p < |symbols|
  {
  }

  // without slack symbols of its own so far, a window's load bits are its terms' bits
  lemma LoadBitsAre(v: Variables, slack: seq<Symbol>, ds: seq<Draw>, w: Window, unit: nat, k: nat)
    requires Readable(v) && AllSlack(slack) && NoSlackOf(v.symbols + slack, w.id)
    requires unit > 0 && PositiveMembers(Members(v, ds, w.id))
    ensures TermBits(MemberTerms(Members(v, ds, w.id), unit) + SlackTerms(|v.symbols + slack|, k))
         == LoadBits(v.symbols + slack + SlackList(w.id, k), ds, w)
  {
    var ms, symbols, more := Members(v, ds, w.id), v.symbols + slack, v.symbols + slack + SlackList(w.id, k);
    TermBitsConcat(MemberTerms(ms, unit), SlackTerms(|symbols|, k));
    SlackSymbolsAre(w.id, k);
    forall p: nat ensures p in TermBits(MemberTerms(ms, unit)) + TermBits(SlackTerms(|symbols|, k)) <==> p in LoadBits(more, ds, w) {
      MemberTermBits(v, ds, w, unit, p);
      SlackTermBits(|symbols|, k, p);
      PlacesIntoStays(v.symbols, slack, ds, w, p);
      PlacesIntoStays(symbols, SlackList(w.id, k), ds, w, p);
      hide Readable, Members, TermBits, PlacesInto, AllSlack, NoSlackOf, SlackOf;
      PlacesIntoTable(v.symbols, ds, w, p);
      SlackPlaces(symbols, w.id, k, p);
    }
  }

  /** The binary digits of a window's cap in its slack unit; none without a unit. */
  function WidthIn(w: Window, units: map<string, nat>): nat {
    if w.id in units && units[w.id] > 0 && w.liquidityCapMinor >= 0 then BitLength(w.liquidityCapMinor / units[w.id]) else 0
  }

  lemma WidthIsDigits(w: Window, units: map<string, nat>)
    requires w.id in units && units[w.id] > 0 && w.liquidityCapMinor / units[w.id] > 0
    ensures Digits(w.liquidityCapMinor / units[w.id], WidthIn(w, units))
  {
    DigitsExceed(w.liquidityCapMinor / units[w.id], 0);
  }

  /** Window by window its slack bits. */
  function SlackBehind(ws: seq<Window>, units: map<string, nat>): seq<Symbol> {
    if ws == [] then [] else SlackBehind(Front(ws), units) + SlackList(Last(ws).id, WidthIn(Last(ws), units))
  }

  lemma StepRecorded(st: BudgetState, v: Variables, slack: seq<Symbol>, ds: seq<Draw>, w: Window, policy: PenaltyPolicy)
    requires Readable(v) && AllSlack(slack) && st.symbols == v.symbols + slack && NoSlackOf(st.symbols, w.id)
    requires w.id !in st.encodings && w.id !in st.units
    requires PositiveMembers(Members(v, ds, w.id)) && w.liquidityCapMinor > 0
    ensures var r := BudgetStep(st, Members(v, ds, w.id), w, policy);
            && r.symbols == st.symbols + SlackList(w.id, WidthIn(w, r.units))
            && r.constraints == st.constraints + BudgetRecord(r.symbols, r.encodings, ds, w, policy.budget, 0)
  {
    var ms, cap, r := Members(v, ds, w.id), w.liquidityCapMinor, BudgetStep(st, Members(v, ds, w.id), w, policy);
    var unit, k := Unit(NatAmounts(ms), cap), SlackWidth(NatAmounts(ms), cap);
    UnitDivides(NatAmounts(ms), cap);
    hide Readable, Members, AllSlack, NoSlackOf, PositiveMembers, EncodingOf, ClashBits, LoadBits, TermBits, OverCapPairs, Apply, Grow, SquareSteps,
         SlackSymbols, SlackList, SlackTerms, MemberTerms, BitLength, Unit;
    assert SlackList(w.id, 0) == [] by { SlackSymbolsAre(w.id, 0); }
    assert st.symbols + [] == st.symbols;
    match EncodingOf(ms, cap)
    case NoBudget =>
    case PairPruned =>
      ClashBitsAre(v, ds, w, policy.budget);
      ClashBitsStay(v.symbols, slack, ds, w);
    case SlackEncoded =>
      SlackSymbolsAre(w.id, k);
      LoadBitsAre(v, slack, ds, w, unit, k);
  }

  /** The windows' slack symbols so far, and nothing of a window still to come. */
  lemma {:induction false} SlackBehindIs(ws: seq<Window>, units: map<string, nat>)
    ensures AllSlack(SlackBehind(ws, units))
    ensures forall id :: (forall j :: 0 <= j < |ws| ==> ws[j].id != id) ==> NoSlackOf(SlackBehind(ws, units), id)
  {
    if ws != [] {
      SlackBehindIs(Front(ws), units);
      SlackSymbolsAre(Last(ws).id, WidthIn(Last(ws), units));
      hide WidthIn;
      forall id | forall j :: 0 <= j < |ws| ==> ws[j].id != id ensures NoSlackOf(SlackBehind(ws, units), id) {
        assert forall j :: 0 <= j < |ws| - 1 ==> Front(ws)[j].id != id;
        assert NoSlackOf(SlackBehind(Front(ws), units), id);
        assert Last(ws) == ws[|ws| - 1];
      }
    }
  }

  lemma {:induction false} SlackBehindSame(ws: seq<Window>, before: map<string, nat>, after: map<string, nat>)
    requires forall j :: 0 <= j < |ws| ==> (ws[j].id in before <==> ws[j].id in after)
    requires forall j :: 0 <= j < |ws| && ws[j].id in before ==> before[ws[j].id] == after[ws[j].id]
    ensures SlackBehind(ws, before) == SlackBehind(ws, after)
  {
    if ws != [] {
      SlackBehindSame(Front(ws), before, after);
      assert Last(ws) == ws[|ws| - 1];
    }
  }

  /** Nothing is on record yet about the windows. */
  predicate Unrecorded(st: BudgetState, ws: seq<Window>) {
    forall j :: 0 <= j < |ws| ==> ws[j].id !in st.encodings && ws[j].id !in st.units
  }

  lemma {:induction false} OthersUnrecorded(st: BudgetState, v: Variables, ds: seq<Draw>, ws: seq<Window>, policy: PenaltyPolicy, id: string)
    requires PositiveAmounts(ds) && PositiveCaps(ws) && forall j :: 0 <= j < |ws| ==> ws[j].id != id
    requires id !in st.encodings && id !in st.units
    ensures id !in Budgets(st, v, ds, ws, policy).encodings && id !in Budgets(st, v, ds, ws, policy).units
  {
    hide BudgetStep;
    if ws != [] {
      OthersUnrecorded(st, v, ds, Front(ws), policy, id);
      MembersPositive(v, ds, Last(ws).id);
      StepKeepsOthers(Budgets(st, v, ds, Front(ws), policy), Members(v, ds, Last(ws).id), Last(ws), policy, id, 0);
    }
  }

  lemma BudgetStepSame(st: BudgetState, ms: seq<Member>, w: Window, policy: PenaltyPolicy, ws: seq<Window>)
    requires PositiveMembers(ms) && w.liquidityCapMinor > 0 && forall j :: 0 <= j < |ws| ==> ws[j].id != w.id
    ensures var r := BudgetStep(st, ms, w, policy);
            && (forall j :: 0 <= j < |ws| ==> (ws[j].id in st.units <==> ws[j].id in r.units))
            && (forall j :: 0 <= j < |ws| ==> (ws[j].id in st.encodings <==> ws[j].id in r.encodings))
            && (forall j :: 0 <= j < |ws| && ws[j].id in st.units ==> st.units[ws[j].id] == r.units[ws[j].id])
            && (forall j :: 0 <= j < |ws| && ws[j].id in st.encodings ==> st.encodings[ws[j].id] == r.encodings[ws[j].id])
  {
    hide BudgetStep;
    forall j | 0 <= j < |ws|
      ensures var r := BudgetStep(st, ms, w, policy);
              && (ws[j].id in st.units <==> ws[j].id in r.units) && (ws[j].id in st.encodings <==> ws[j].id in r.encodings)
              && (ws[j].id in st.units ==> st.units[ws[j].id] == r.units[ws[j].id])
              && (ws[j].id in st.encodings ==> st.encodings[ws[j].id] == r.encodings[ws[j].id])
    {
      StepKeepsOthers(st, ms, w, policy, ws[j].id, 0);
    }
  }

  lemma RecordedMore(base: seq<Constraint>, st: BudgetState, v: Variables, ds: seq<Draw>, front: seq<Window>, w: Window, policy: PenaltyPolicy)
    requires Readable(v) && NoSlack(v.symbols) && PositiveMembers(Members(v, ds, w.id)) && w.liquidityCapMinor > 0
    requires st.symbols == v.symbols + SlackBehind(front, st.units)
    requires st.constraints == base + BudgetRecords(st.symbols, st.encodings, ds, front, policy.budget, 0)
    requires w.id !in st.encodings && w.id !in st.units && forall j :: 0 <= j < |front| ==> front[j].id != w.id
    ensures var r := BudgetStep(st, Members(v, ds, w.id), w, policy);
            && r.symbols == v.symbols + (SlackBehind(front, r.units) + SlackList(w.id, WidthIn(w, r.units)))
            && r.constraints == base + (BudgetRecords(r.symbols, r.encodings, ds, front, policy.budget, 0)
                                        + BudgetRecord(r.symbols, r.encodings, ds, w, policy.budget, 0))
  {
    var slack, ms := SlackBehind(front, st.units), Members(v, ds, w.id);
    SlackBehindIs(front, st.units);
    JoinNoSlack(v.symbols, slack, w.id);
    StepRecorded(st, v, slack, ds, w, policy);
    BudgetStepSame(st, ms, w, policy, front);
    hide *;
    RecordsGrow(base, st, BudgetStep(st, ms, w, policy), v.symbols, ds, front, w, policy.budget);
  }

  lemma RecordsGrow(base: seq<Constraint>, st: BudgetState, r: BudgetState, table: seq<Symbol>, ds: seq<Draw>, front: seq<Window>, w: Window, P: int)
    requires st.symbols == table + SlackBehind(front, st.units)
    requires st.constraints == base + BudgetRecords(st.symbols, st.encodings, ds, front, P, 0)
    requires r.symbols == st.symbols + SlackList(w.id, WidthIn(w, r.units))
    requires r.constraints == st.constraints + BudgetRecord(r.symbols, r.encodings, ds, w, P, 0)
    requires forall j :: 0 <= j < |front| ==> front[j].id != w.id
    requires forall j :: 0 <= j < |front| ==> (front[j].id in st.units <==> front[j].id in r.units)
    requires forall j :: 0 <= j < |front| ==> (front[j].id in st.encodings <==> front[j].id in r.encodings)
    requires forall j :: 0 <= j < |front| && front[j].id in st.units ==> st.units[front[j].id] == r.units[front[j].id]
    requires forall j :: 0 <= j < |front| && front[j].id in st.encodings ==> st.encodings[front[j].id] == r.encodings[front[j].id]
    ensures r.symbols == table + (SlackBehind(front, r.units) + SlackList(w.id, WidthIn(w, r.units)))
    ensures r.constraints == base + (BudgetRecords(r.symbols, r.encodings, ds, front, P, 0) + BudgetRecord(r.symbols, r.encodings, ds, w, P, 0))
  {
    hide *;
    SlackBehindSame(front, st.units, r.units);
    RecordsBehind(st.symbols, w, r.units, st.encodings, r.encodings, ds, front, P);
    var earlier, own := BudgetRecords(st.symbols, st.encodings, ds, front, P, 0), BudgetRecord(r.symbols, r.encodings, ds, w, P, 0);
    assert base + earlier + own == base + (earlier + own);
    var slack, more := SlackBehind(front, st.units), SlackList(w.id, WidthIn(w, r.units));
    assert table + slack + more == table + (slack + more);
  }

  // a window's slack symbols change no record of the windows before it
  lemma RecordsBehind(symbols: seq<Symbol>, w: Window, units: map<string, nat>, before: map<string, Encoding>, after: map<string, Encoding>,
                      ds: seq<Draw>, front: seq<Window>, P: int)
    requires forall j :: 0 <= j < |front| ==> front[j].id != w.id
    requires forall j :: 0 <= j < |front| ==> (front[j].id in before <==> front[j].id in after)
    requires forall j :: 0 <= j < |front| && front[j].id in before ==> before[front[j].id] == after[front[j].id]
    ensures BudgetRecords(symbols + SlackList(w.id, WidthIn(w, units)), after, ds, front, P, 0) == BudgetRecords(symbols, before, ds, front, P, 0)
  {
    var more := SlackList(w.id, WidthIn(w, units));
    SlackSymbolsAre(w.id, WidthIn(w, units));
    hide AllSlack, BudgetRecords, WidthIn, SlackList;
    SlackElsewhere(more, w.id, front);
    BudgetRecordsStay(symbols, more, before, after, ds, front, P, 0);
  }

  lemma SlackElsewhere(slack: seq<Symbol>, id: string, ws: seq<Window>)
    requires forall p :: 0 <= p < |slack| ==> SlackOf(slack[p], id)
    requires forall j :: 0 <= j < |ws| ==> ws[j].id != id
    ensures forall j, p :: 0 <= j < |ws| && 0 <= p < |slack| ==> !SlackOf(slack[p], ws[j].id)
  {
  }

  lemma {:induction false} BudgetsRecorded(st: BudgetState, v: Variables, ds: seq<Draw>, ws: seq<Window>, policy: PenaltyPolicy)
    requires PositiveAmounts(ds) && PositiveCaps(ws) && UniqueWindows(ws) && Unrecorded(st, ws)
    requires Readable(v) && NoSlack(v.symbols) && st.symbols == v.symbols
    ensures var r := Budgets(st, v, ds, ws, policy);
            && r.symbols == v.symbols + SlackBehind(ws, r.units)
            && r.constraints == st.constraints + BudgetRecords(r.symbols, r.encodings, ds, ws, policy.budget, 0)
  {
    hide BudgetStep, Readable, NoSlack, UniqueWindows, BudgetRecord, Members, WidthIn, SlackList;
    if ws != [] {
      var front, w, before := Front(ws), Last(ws), Budgets(st, v, ds, Front(ws), policy);
      LastIsOther(ws);
      assert w == ws[|ws| - 1];
      BudgetsRecorded(st, v, ds, front, policy);
      MembersPositive(v, ds, w.id);
      OthersUnrecorded(st, v, ds, front, policy, w.id);
      RecordedMore(st.constraints, before, v, ds, front, w, policy);
    }
  }

  lemma LastIsOther(ws: seq<Window>)
    requires ws != [] && UniqueWindows(ws)
    ensures UniqueWindows(Front(ws)) && forall j :: 0 <= j < |Front(ws)| ==> Front(ws)[j].id != Last(ws).id
  {
  }

  lemma JoinNoSlack(symbols: seq<Symbol>, slack: seq<Symbol>, id: string)
    requires NoSlack(symbols) && NoSlackOf(slack, id)
    ensures NoSlackOf(symbols + slack, id)
  {
  }

  // ---------------------------------------------------------------------------
  // The artifact
  // ---------------------------------------------------------------------------

  lemma StampMore(a: seq<Constraint>, c: Constraint, delta: int)
    ensures StampDelta(a + [c], delta) == StampDelta(a, delta) + [c.(deltaEMax := delta)]
  {
  }

  lemma StampConcat(a: seq<Constraint>, b: seq<Constraint>, delta: int)
    ensures StampDelta(a + b, delta) == StampDelta(a, delta) + StampDelta(b, delta)
  {
  }

  lemma {:induction false} CardinalityStamped(symbols: seq<Symbol>, ds: seq<Draw>, ws: seq<Window>, P: int, delta: int)
    ensures StampDelta(CardinalityRecords(symbols, ds, ws, P, 0), delta) == CardinalityRecords(symbols, ds, ws, P, delta)
  {
    hide StampDelta, SlotBits;
    if ds != [] {
      CardinalityStamped(symbols, Front(ds), ws, P, delta);
      StampMore(CardinalityRecords(symbols, Front(ds), ws, P, 0), Last(CardinalityRecords(symbols, ds, ws, P, 0)), delta);
    } else {
      NothingStamped(delta);
    }
  }

  lemma NothingStamped(delta: int)
    ensures StampDelta([], delta) == []
  {
  }

  lemma {:induction false} PrecedenceStamped(symbols: seq<Symbol>, ps: seq<Precedence>, ws: seq<Window>, P: int, delta: int)
    ensures StampDelta(PrecedenceRecords(symbols, ps, ws, P, 0), delta) == PrecedenceRecords(symbols, ps, ws, P, delta)
  {
    hide StampDelta, OrderBits;
    if ps != [] {
      PrecedenceStamped(symbols, Front(ps), ws, P, delta);
      if OrderBits(symbols, Last(ps), ws) != {} {
        StampMore(PrecedenceRecords(symbols, Front(ps), ws, P, 0), Last(PrecedenceRecords(symbols, ps, ws, P, 0)), delta);
      } else {
        assert PrecedenceRecords(symbols, ps, ws, P, 0) == PrecedenceRecords(symbols, Front(ps), ws, P, 0);
      }
    } else {
      NothingStamped(delta);
    }
  }

  lemma {:induction false} BudgetStamped(symbols: seq<Symbol>, encodings: map<string, Encoding>, ds: seq<Draw>, ws: seq<Window>, P: int, delta: int)
    ensures StampDelta(BudgetRecords(symbols, encodings, ds, ws, P, 0), delta) == BudgetRecords(symbols, encodings, ds, ws, P, delta)
  {
    if ws != [] {
      BudgetStamped(symbols, encodings, ds, Front(ws), P, delta);
      StampConcat(BudgetRecords(symbols, encodings, ds, Front(ws), P, 0), BudgetRecord(symbols, encodings, ds, Last(ws), P, 0), delta);
      hide ClashBits, LoadBits;
    }
  }

  lemma SwingWithSlack(s: FrozenScenario, symbols: seq<Symbol>, slack: seq<Symbol>)
    requires AllSlack(slack)
    ensures SumOver(s.draws, DrawSwing(symbols + slack, s.windows)) == SumOver(s.draws, DrawSwing(symbols, s.windows))
    ensures SumOver(s.concentrationPairs, CrowdingSwing(symbols + slack, s.windows))
         == SumOver(s.concentrationPairs, CrowdingSwing(symbols, s.windows))
  {
    hide AllSlack, Found;
    var more, ws := symbols + slack, s.windows;
    forall d | d in s.draws ensures DrawSwing(more, ws)(d) == DrawSwing(symbols, ws)(d) {
      forall w | w in ws ensures PlacementSwing(more, d)(w) == PlacementSwing(symbols, d)(w) {
        FoundWithSlack(symbols, slack, d.id + "|" + w.id);
      }
      SumOverSame(ws, PlacementSwing(more, d), PlacementSwing(symbols, d));
    }
    forall c | c in s.concentrationPairs ensures CrowdingSwing(more, ws)(c) == CrowdingSwing(symbols, ws)(c) {
      forall w | w in ws ensures SharedSwing(more, c)(w) == SharedSwing(symbols, c)(w) {
        FoundWithSlack(symbols, slack, c.left + "|" + w.id);
        FoundWithSlack(symbols, slack, c.right + "|" + w.id);
      }
      SumOverSame(ws, SharedSwing(more, c), SharedSwing(symbols, c));
    }
    SumOverSame(s.draws, DrawSwing(more, ws), DrawSwing(symbols, ws));
    SumOverSame(s.concentrationPairs, CrowdingSwing(more, ws), CrowdingSwing(symbols, ws));
  }

  /** The constraint list over a symbol table, with the swing stamped into every record. */
  ghost function Records(s: FrozenScenario, policy: PenaltyPolicy, ds: seq<Draw>, symbols: seq<Symbol>, encodings: map<string, Encoding>, delta: int):
    seq<Constraint>
  {
    CardinalityRecords(symbols, ds, s.windows, policy.cardinality, delta)
    + PrecedenceRecords(symbols, SortedPrecedence(s), s.windows, policy.precedence, delta)
    + BudgetRecords(symbols, encodings, ds, s.windows, policy.budget, delta)
  }

  lemma {:induction false} ListHasNoSlack(ds: seq<Draw>, ws: seq<Window>)
    ensures NoSlack(SymbolList(ds, ws))
  {
    if ds != [] {
      ListHasNoSlack(Front(ds), ws);
      PlacementsHaveNoSlack(Last(ds), ws);
    }
  }

  lemma {:induction false} PlacementsHaveNoSlack(d: Draw, ws: seq<Window>)
    ensures NoSlack(Placements(d, ws))
  {
    if ws != [] { PlacementsHaveNoSlack(d, Front(ws)); }
  }

  lemma StartsUnrecorded(s: FrozenScenario, policy: PenaltyPolicy)
    ensures Unrecorded(StateBeforeBudgets(s, policy), s.windows)
    ensures StateBeforeBudgets(s, policy).symbols == VariablesOf(s).symbols
    ensures Named(VariablesOf(s), SortedDraws(s))
    ensures StateBeforeBudgets(s, policy).constraints
         == CardinalityConstraints(VariablesOf(s), SortedDraws(s), s.windows, policy.cardinality)
          + PrecedenceConstraints(VariablesOf(s), SortedPrecedence(s), s.windows, policy.precedence)
  {
    EveryDrawNamed(SortedDraws(s), s.windows);
    hide NameVariables, SortBy, Apply, PrecedenceConstraints, CardinalityConstraints;
  }

  /** The table and the records the budget phase ends with, whether or not it refused a window. */
  lemma AfterBudgetsRecords(s: FrozenScenario, policy: PenaltyPolicy)
    requires ValidScenario(s, policy)
    ensures PositiveAmounts(s.draws) && PositiveCaps(s.windows)
    ensures var st := AfterBudgets(s, policy);
            && st.symbols == SymbolList(SortedDraws(s), s.windows) + SlackBehind(s.windows, st.units)
            && st.constraints == Records(s, policy, SortedDraws(s), st.symbols, st.encodings, 0)
  {
    var ds, ws, v, before := SortedDraws(s), s.windows, VariablesOf(s), StateBeforeBudgets(s, policy);
    ValidIsPositive(s, policy);
    SortedDrawsPositive(s);
    VariablesReadable(ds, ws);
    VariablesListed(ds, ws);
    ListHasNoSlack(ds, ws);
    StartsUnrecorded(s, policy);
    CardinalityRecorded(v, ds, ws, policy.cardinality);
    PrecedenceRecorded(v, SortedPrecedence(s), ws, policy.precedence);
    BudgetsRecorded(before, v, ds, ws, policy);
    var st := AfterBudgets(s, policy);
    assert st == Budgets(before, v, ds, ws, policy) by { hide Budgets, BeforeBudgets, NameVariables, SortBy; }
    SlackBehindIs(ws, st.units);
    hide *;
    CardinalityStays(v.symbols, SlackBehind(ws, st.units), ds, ws, policy.cardinality, 0);
    PrecedenceStays(v.symbols, SlackBehind(ws, st.units), SortedPrecedence(s), ws, policy.precedence, 0);
    RecordsJoin(s, policy, ds, st.symbols, st.encodings);
  }

  lemma RecordsJoin(s: FrozenScenario, policy: PenaltyPolicy, ds: seq<Draw>, symbols: seq<Symbol>, encodings: map<string, Encoding>)
    ensures Records(s, policy, ds, symbols, encodings, 0)
         == CardinalityRecords(symbols, ds, s.windows, policy.cardinality, 0)
          + PrecedenceRecords(symbols, SortedPrecedence(s), s.windows, policy.precedence, 0)
          + BudgetRecords(symbols, encodings, ds, s.windows, policy.budget, 0)
  {
  }

  lemma RecordsStamped(s: FrozenScenario, policy: PenaltyPolicy, ds: seq<Draw>, symbols: seq<Symbol>, encodings: map<string, Encoding>, delta: int)
    ensures StampDelta(Records(s, policy, ds, symbols, encodings, 0), delta) == Records(s, policy, ds, symbols, encodings, delta)
  {
    hide StampDelta, CardinalityRecords, PrecedenceRecords, BudgetRecords, SortBy;
    var ps, ws := SortedPrecedence(s), s.windows;
    var a, b, c := CardinalityRecords(symbols, ds, ws, policy.cardinality, 0), PrecedenceRecords(symbols, ps, ws, policy.precedence, 0),
                   BudgetRecords(symbols, encodings, ds, ws, policy.budget, 0);
    CardinalityStamped(symbols, ds, ws, policy.cardinality, delta);
    PrecedenceStamped(symbols, ps, ws, policy.precedence, delta);
    BudgetStamped(symbols, encodings, ds, ws, policy.budget, delta);
    StampConcat(a, b, delta);
    StampConcat(a + b, c, delta);
  }
}
