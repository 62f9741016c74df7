/**
 * What the string-joined bit keys cost. Two (draw, window) pairs whose ids join to
 * the same text share one lookup. When a live pair is involved, the schedule that
 * uses it alone can no longer be written as a bitstring at its own cost; when none
 * is, every feasible schedule can. So the encoding is faithful exactly when no live
 * pair shares its key.
 */
module KeyCollisions {
  import opened Sums
  import opened Ordering
  import opened QuadraticForm
  import opened Scenario
  import opened CompilerSpec
  import opened Decomposition
  import opened Schedules
  import opened VariableTable
  import opened PenaltyTerms
  import opened Representation
  import opened Meaning
  import opened Optimality

  /** Every feasible schedule has a bitstring that decodes to it and has its cost as energy. */
  ghost predicate FaithfulEncoding(s: FrozenScenario, policy: PenaltyPolicy)
    requires Compile(s, policy).Compiled?
  {
    forall sched: Schedule | Feasible(s, sched) :: EncodedAtCost(s, policy, sched)
  }

  ghost predicate EncodedAtCost(s: FrozenScenario, policy: PenaltyPolicy, sched: Schedule)
    requires Compile(s, policy).Compiled?
  {
    exists x: Bits :: Encodes(s, policy, x, sched)
  }

  ghost predicate Encodes(s: FrozenScenario, policy: PenaltyPolicy, x: Bits, sched: Schedule)
    requires Compile(s, policy).Compiled?
  {
    && |x| == Compile(s, policy).artifact.N()
    && Decodes(Compile(s, policy).artifact.symbols, x, s.draws, sched)
    && ArtifactEnergy(s, policy, x) == Cost(s, sched) as real
  }

  // ---------------------------------------------------------------------------
  // Facts that hold whether or not keys collide
  // ---------------------------------------------------------------------------

  lemma {:induction false} BudgetsNonNegative(st: BudgetState, v: Variables, draws: seq<Draw>, ws: seq<Window>,
                                             policy: PenaltyPolicy, x: Bits)
    requires PositiveAmounts(draws) && PositiveCaps(ws) && policy.budget > 0
    ensures BudgetsEnergy(st, v, draws, ws, policy, x) >= 0
  {
    if ws != [] {
      BudgetsNonNegative(st, v, draws, Front(ws), policy, x);
      MembersPositive(v, draws, Last(ws).id);
      WindowNonNegative(Members(v, draws, Last(ws).id), Last(ws),
                        |Budgets(st, v, draws, Front(ws), policy).symbols|, policy, x);
    }
  }

  lemma WindowNonNegative(ms: seq<Member>, w: Window, from: nat, policy: PenaltyPolicy, x: Bits)
    requires PositiveMembers(ms) && w.liquidityCapMinor > 0 && policy.budget > 0
    ensures WindowEnergy(ms, w, from, policy, x) >= 0
  {
    match EncodingOf(ms, w.liquidityCapMinor)
    case NoBudget =>
    case PairPruned => OverCapPairsMeaning(ms, |ms|, w.liquidityCapMinor, policy.budget, x);
    case SlackEncoded =>
      if WindowEnergy(ms, w, from, policy, x) != 0 {
        Slack.UnitDivides(NatAmounts(ms), w.liquidityCapMinor);
        SquarePenalty(policy.budget, Load(BudgetTerms(ms, w.liquidityCapMinor, from), x)
                                     - w.liquidityCapMinor / Slack.Unit(NatAmounts(ms), w.liquidityCapMinor));
      }
  }

  /** Within a list of terms, one weight minus the energy of a bitstring never exceeds the total weight. */
  lemma {:induction false} OneWeightSwing(t: seq<Step>, x: Bits, k: nat)
    requires k < |t| && t[k].Linear?
    ensures t[k].w - StepsEnergy(t, x) <= StepsWeight(t)
  {
    StepsSwing(Front(t), [], x);
    NothingOn(Front(t), x);
    if k < |t| - 1 { OneWeightSwing(Front(t), x, k); }
  }

  lemma {:induction false} NothingOn(t: seq<Step>, x: Bits)
    ensures -StepsEnergy(t, x) <= StepsWeight(t)
  {
    if t != [] { NothingOn(Front(t), x); }
  }

  lemma {:induction false} PlacementListed(v: Variables, d: Draw, ws: seq<Window>, j: nat) returns (k: nat)
    requires j < |ws| && HasX(v, d.id, ws[j].id)
    ensures k < |PlacementSteps(v, d, ws)|
    ensures PlacementSteps(v, d, ws)[k] == Linear(XBit(v, d.id, ws[j].id), PlacementCost(d, ws[j].id))
  {
    if j < |ws| - 1 {
      k := PlacementListed(v, d, Front(ws), j);
    } else {
      k := |PlacementSteps(v, d, Front(ws))|;
    }
  }

  /** The slot is deferral, or a window for which the draw's key finds a bit. */
  ghost predicate SlotListed(v: Variables, d: Draw, ws: seq<Window>, slot: Slot) {
    slot.In? ==> exists j :: 0 <= j < |ws| && ws[j].id == slot.window && HasX(v, d.id, ws[j].id)
  }

  lemma DrawSwing(v: Variables, d: Draw, ws: seq<Window>, slot: Slot, x: Bits)
    requires d.id in v.zBit && SlotListed(v, d, ws, slot)
    ensures SlotCost(d, slot) - StepsEnergy(DrawSteps(v, d, ws), x) <= StepsWeight(DrawSteps(v, d, ws))
  {
    var steps := DrawSteps(v, d, ws);
    if slot.In? {
      var j :| 0 <= j < |ws| && ws[j].id == slot.window && HasX(v, d.id, ws[j].id);
      var k := PlacementListed(v, d, ws, j);
      assert steps[k] == PlacementSteps(v, d, ws)[k];
      OneWeightSwing(steps, x, k);
    } else {
      assert steps[|steps| - 1] == Linear(v.zBit[d.id], d.deferralCost);
      OneWeightSwing(steps, x, |steps| - 1);
    }
  }

  lemma {:induction false} ObjectiveSwing(v: Variables, draws: seq<Draw>, ws: seq<Window>, sched: Schedule, x: Bits)
    requires Named(v, draws) && forall i :: 0 <= i < |draws| ==> SlotListed(v, draws[i], ws, SlotOf(sched, draws[i].id))
    ensures SumOver(draws, DrawCost(sched)) - StepsEnergy(ObjectiveSteps(v, draws, ws), x)
         <= StepsWeight(ObjectiveSteps(v, draws, ws))
  {
    hide SlotListed, DrawSteps;
    if draws != [] {
      var front, d := Front(draws), Last(draws);
      assert d == draws[|draws| - 1];
      ObjectiveSwing(v, front, ws, sched, x);
      DrawSwing(v, d, ws, SlotOf(sched, d.id), x);
      StepsEnergyConcat(ObjectiveSteps(v, front, ws), DrawSteps(v, d, ws), x);
      StepsWeightConcat(ObjectiveSteps(v, front, ws), DrawSteps(v, d, ws));
    }
  }

  // ---------------------------------------------------------------------------
  // The table without distinct keys
  // ---------------------------------------------------------------------------

  /** Each symbol occurs once, and a deferral bit is found under its draw. */
  ghost predicate SymbolsOnce(v: Variables) {
    && (forall p: nat, q: nat :: p < q < |v.symbols| ==> v.symbols[p] != v.symbols[q])
    && (forall k :: k in v.zBit ==> v.zBit[k] < |v.symbols| && v.symbols[v.zBit[k]] == ZSymbol(k))
  }

  ghost predicate NoSymbolFor(v: Variables, id: string) {
    forall p: nat :: p < |v.symbols| ==> !Names(v.symbols[p], id)
  }

  ghost predicate OnlyWindowsFor(v: Variables, id: string, ws: seq<Window>) {
    forall p: nat :: p < |v.symbols| && Names(v.symbols[p], id) ==>
      v.symbols[p].XSymbol? && WindowKnown(ws, v.symbols[p].window)
  }

  lemma NameXOnce(v: Variables, d: Draw, ws: seq<Window>, J: nat)
    requires J < |ws| && UniqueWindows(ws) && SymbolsOnce(v) && OnlyWindowsFor(v, d.id, ws[..J])
    ensures SymbolsOnce(NameX(v, d, ws[J])) && OnlyWindowsFor(NameX(v, d, ws[J]), d.id, ws[..J + 1])
  {
    var r := NameX(v, d, ws[J]);
    forall p: nat | p < |v.symbols| && Names(v.symbols[p], d.id)
      ensures v.symbols[p].XSymbol? && WindowKnown(ws[..J + 1], v.symbols[p].window) && v.symbols[p] != XSymbol(d.id, ws[J].id)
    {
      var j :| 0 <= j < J && ws[..J][j].id == v.symbols[p].window;
      assert ws[..J + 1][j].id == v.symbols[p].window && ws[j].id != ws[J].id;
    }
    assert ws[..J + 1][J].id == ws[J].id;
    forall p: nat, q: nat | p < q < |r.symbols| ensures r.symbols[p] != r.symbols[q] {
      if q == |v.symbols| && r.symbols[q] == XSymbol(d.id, ws[J].id) {
        if r.symbols[p] == r.symbols[q] { assert Names(v.symbols[p], d.id); }
      }
    }
  }

  lemma {:induction false} NameXsOnce(v: Variables, d: Draw, ws: seq<Window>, J: nat)
    requires J <= |ws| && UniqueWindows(ws) && SymbolsOnce(v) && NoSymbolFor(v, d.id)
    ensures SymbolsOnce(NameXs(v, d, ws[..J])) && OnlyWindowsFor(NameXs(v, d, ws[..J]), d.id, ws[..J])
  {
    if J > 0 {
      NameXsOnce(v, d, ws, J - 1);
      assert Front(ws[..J]) == ws[..J - 1];
      NameXOnce(NameXs(v, d, ws[..J - 1]), d, ws, J - 1);
    }
  }

  lemma NameZOnce(v: Variables, d: Draw, ws: seq<Window>)
    requires SymbolsOnce(v) && OnlyWindowsFor(v, d.id, ws) && d.id !in v.zBit
    ensures SymbolsOnce(NameZ(v, d))
  {
  }

  lemma {:induction false} NameVariablesOnce(draws: seq<Draw>, ws: seq<Window>, I: nat)
    requires I <= |draws| && UniqueDraws(draws) && UniqueWindows(ws)
    ensures SymbolsOnce(NameVariables(draws[..I], ws))
  {
    if I > 0 {
      NameVariablesOnce(draws, ws, I - 1);
      var v := NameVariables(draws[..I - 1], ws);
      assert Front(draws[..I]) == draws[..I - 1];
      NameVariablesWithin(draws[..I - 1], I - 1, ws);
      assert draws[..I - 1][..I - 1] == draws[..I - 1];
      NotYetNamed(draws, I - 1);
      NameXsOnce(v, draws[I - 1], ws, |ws|);
      assert ws[..|ws|] == ws;
      NameXsKeepsZ(v, draws[I - 1], ws);
      NameVariablesKeys(draws[..I - 1], ws);
      NameZOnce(NameXs(v, draws[I - 1], ws), draws[I - 1], ws);
    }
  }

  lemma NotYetNamed(draws: seq<Draw>, I: nat)
    requires I < |draws| && UniqueDraws(draws)
    ensures !DrawKnown(draws[..I], draws[I].id)
  {
    assert forall i :: 0 <= i < I ==> draws[..I][i] == draws[i] && draws[i].id != draws[I].id;
  }

  // ---------------------------------------------------------------------------
  // The pair that owns a lookup
  // ---------------------------------------------------------------------------

  ghost predicate PairLive(draws: seq<Draw>, ws: seq<Window>, a: string, b: string) {
    exists i, j :: 0 <= i < |draws| && 0 <= j < |ws| && draws[i].id == a && ws[j].id == b && Live(draws[i], ws[j])
  }

  /** Every key finds a bit whose symbol joins to that key and is a live pair. */
  ghost predicate LookupsLive(v: Variables, draws: seq<Draw>, ws: seq<Window>) {
    && (forall k | k in v.xBit ::
          && v.xBit[k] < |v.symbols| && v.symbols[v.xBit[k]].XSymbol?
          && BitKey(v.symbols[v.xBit[k]].draw, v.symbols[v.xBit[k]].window) == k)
    && (forall p: nat :: p < |v.symbols| && v.symbols[p].XSymbol? ==>
          PairLive(draws, ws, v.symbols[p].draw, v.symbols[p].window))
  }

  lemma NameXLive(v: Variables, draws: seq<Draw>, I: nat, ws: seq<Window>, J: nat)
    requires I < |draws| && J < |ws| && LookupsLive(v, draws, ws)
    requires Live(draws[I], ws[J]) ==> PairLive(draws, ws, draws[I].id, ws[J].id)
    ensures LookupsLive(NameX(v, draws[I], ws[J]), draws, ws)
  {
    hide PairLive;
  }

  lemma {:induction false} NameXsLive(v: Variables, draws: seq<Draw>, I: nat, ws: seq<Window>, J: nat)
    requires I < |draws| && J <= |ws| && LookupsLive(v, draws, ws)
    ensures LookupsLive(NameXs(v, draws[I], ws[..J]), draws, ws)
  {
    if J > 0 {
      NameXsLive(v, draws, I, ws, J - 1);
      assert Front(ws[..J]) == ws[..J - 1];
      if Live(draws[I], ws[J - 1]) { assert PairLive(draws, ws, draws[I].id, ws[J - 1].id); }
      hide PairLive;
      NameXLive(NameXs(v, draws[I], ws[..J - 1]), draws, I, ws, J - 1);
    }
  }

  lemma {:induction false} NameVariablesLive(draws: seq<Draw>, ws: seq<Window>, I: nat)
    requires I <= |draws|
    ensures LookupsLive(NameVariables(draws[..I], ws), draws, ws)
  {
    if I > 0 {
      NameVariablesLive(draws, ws, I - 1);
      assert Front(draws[..I]) == draws[..I - 1];
      NameXsLive(NameVariables(draws[..I - 1], ws), draws, I - 1, ws, |ws|);
      assert ws[..|ws|] == ws;
      hide PairLive;
    }
  }

  lemma JoinSameDraw(d: string, w: string, u: string)
    requires BitKey(d, w) == BitKey(d, u)
    ensures w == u
  {
    assert w == BitKey(d, w)[|d| + 1..] && u == BitKey(d, u)[|d| + 1..];
  }

  /** Two pairs, both answering to the key of the bit `p` named after the live pair `owner`. */
  datatype Collision = Collision(p: nat, owner: Draw, ownerWindow: Window, other: Draw, otherWindow: Window)

  ghost predicate Collides(v: Variables, draws: seq<Draw>, ws: seq<Window>, c: Collision) {
    && c.owner in draws && c.other in draws && c.ownerWindow in ws && c.otherWindow in ws
    && Live(c.owner, c.ownerWindow) && c.other.id != c.owner.id
    && c.p < |v.symbols| && v.symbols[c.p] == XSymbol(c.owner.id, c.ownerWindow.id)
    && HasX(v, c.other.id, c.otherWindow.id) && XBit(v, c.other.id, c.otherWindow.id) == c.p
  }

  lemma CollidingPairs(draws: seq<Draw>, ws: seq<Window>) returns (i: nat, j: nat, k: nat, l: nat)
    requires !KeysDistinct(draws, ws)
    ensures i < |draws| && j < |ws| && k < |draws| && l < |ws| && (i, j) != (k, l)
    ensures Live(draws[i], ws[j]) && BitKey(draws[i].id, ws[j].id) == BitKey(draws[k].id, ws[l].id)
  {
    hide Live, BitKey;
    i, j, k, l :| 0 <= i < |draws| && 0 <= j < |ws| && 0 <= k < |draws| && 0 <= l < |ws|
      && Live(draws[i], ws[j]) && BitKey(draws[i].id, ws[j].id) == BitKey(draws[k].id, ws[l].id) && !(i == k && j == l);
  }

  /** The live pair the bit of a key is named after. */
  lemma OwnerOf(draws: seq<Draw>, ws: seq<Window>, key: string) returns (a: nat, b: nat)
    requires key in LiveKeys(draws, ws)
    ensures a < |draws| && b < |ws| && Live(draws[a], ws[b]) && BitKey(draws[a].id, ws[b].id) == key
    ensures var v := NameVariables(draws, ws);
            key in v.xBit && v.xBit[key] < |v.symbols| && v.symbols[v.xBit[key]] == XSymbol(draws[a].id, ws[b].id)
  {
    var v := NameVariables(draws, ws);
    NameVariablesKeys(draws, ws);
    NameVariablesLive(draws, ws, |draws|);
    assert draws[..|draws|] == draws;
    var sym := v.symbols[v.xBit[key]];
    assert PairLive(draws, ws, sym.draw, sym.window);
    a, b :| 0 <= a < |draws| && 0 <= b < |ws| && draws[a].id == sym.draw && ws[b].id == sym.window && Live(draws[a], ws[b]);
  }

  lemma OtherDraw(draws: seq<Draw>, ws: seq<Window>, e: nat, f: nat, a: nat, b: nat)
    requires UniqueDraws(draws) && UniqueWindows(ws) && e < |draws| && f < |ws| && a < |draws| && b < |ws|
    requires BitKey(draws[e].id, ws[f].id) == BitKey(draws[a].id, ws[b].id) && (e, f) != (a, b)
    ensures draws[e].id != draws[a].id
  {
    if draws[e].id == draws[a].id {
      JoinSameDraw(draws[a].id, ws[f].id, ws[b].id);
      UniqueWindowIndex(ws, f, b);
      UniqueIndex(draws, e, a);
    }
  }

  lemma FindCollision(draws: seq<Draw>, ws: seq<Window>) returns (c: Collision)
    requires UniqueDraws(draws) && UniqueWindows(ws) && !KeysDistinct(draws, ws)
    ensures Collides(NameVariables(draws, ws), draws, ws, c)
  {
    hide UniqueDraws, UniqueWindows, KeysDistinct, LiveKeys, Live, NameVariables, BitKey;
    var i, j, k, l := CollidingPairs(draws, ws);
    var key := BitKey(draws[i].id, ws[j].id);
    LiveKeysCover(draws, ws, i, j);
    var a, b := OwnerOf(draws, ws, key);
    var e, f := if i == a && j == b then k else i, if i == a && j == b then l else j;
    OtherDraw(draws, ws, e, f, a, b);
    c := Collision(NameVariables(draws, ws).xBit[key], draws[a], ws[b], draws[e], ws[f]);
  }

  lemma UniqueWindowIndex(ws: seq<Window>, i: nat, k: nat)
    requires UniqueWindows(ws) && i < |ws| && k < |ws| && ws[i].id == ws[k].id
    ensures i == k
  {
  }

  // ---------------------------------------------------------------------------
  // One draw placed alone
  // ---------------------------------------------------------------------------

  function Solo(s: FrozenScenario, draw: string, window: string): Schedule {
    map id | id in DrawIds(s.draws) :: if id == draw then In(window) else Deferred
  }

  lemma {:induction false} SoloLoad(draws: seq<Draw>, sched: Schedule, d: Draw, w: string, window: string)
    requires UniqueDraws(draws) && d.amountMinor >= 0
    requires forall i :: 0 <= i < |draws| ==> SlotOf(sched, draws[i].id) == if draws[i].id == d.id then In(w) else Deferred
    requires forall i :: 0 <= i < |draws| && draws[i].id == d.id ==> draws[i] == d
    ensures 0 <= WindowLoad(draws, sched, window) <= if window == w then d.amountMinor else 0
    ensures (forall i :: 0 <= i < |draws| ==> draws[i].id != d.id) ==> WindowLoad(draws, sched, window) == 0
  {
    if draws != [] {
      assert forall i :: 0 <= i < |draws| - 1 ==> draws[i] == Front(draws)[i];
      assert Last(draws) == draws[|draws| - 1];
      SoloLoad(Front(draws), sched, d, w, window);
    }
  }

  lemma SoloFeasible(s: FrozenScenario, policy: PenaltyPolicy, d: Draw, w: Window)
    requires ValidScenario(s, policy) && d in s.draws && w in s.windows && Live(d, w)
    ensures Feasible(s, Solo(s, d.id, w.id))
  {
    var sched := Solo(s, d.id, w.id);
    var n :| 0 <= n < |s.draws| && s.draws[n] == d;
    var m :| 0 <= m < |s.windows| && s.windows[m] == w;
    forall i | 0 <= i < |s.draws| ensures SlotOf(sched, s.draws[i].id) == if s.draws[i].id == d.id then In(w.id) else Deferred {
      DrawIdsAre(s.draws, s.draws[i].id);
      assert DrawKnown(s.draws, s.draws[i].id);
    }
    forall i | 0 <= i < |s.draws| && s.draws[i].id == d.id ensures s.draws[i] == d {
      UniqueIndex(s.draws, i, n);
    }
    forall j | 0 <= j < |s.windows| ensures WindowLoad(s.draws, sched, s.windows[j].id) <= s.windows[j].liquidityCapMinor {
      SoloLoad(s.draws, sched, d, w.id, s.windows[j].id);
      if s.windows[j].id == w.id { UniqueWindowIndex(s.windows, j, m); }
    }
    forall k | 0 <= k < |s.precedence| ensures InOrder(sched, s.precedence[k], s.windows) {
      assert ValidPrecedence(s.precedence[k], DrawIds(s.draws));
    }
  }

  lemma {:induction false} SoloNoCrowding(cs: seq<Concentration>, s: FrozenScenario, draw: string, window: string)
    requires forall k :: 0 <= k < |cs| ==> cs[k].left != cs[k].right
    ensures SumOver(cs, CrowdingCost(Solo(s, draw, window))) == 0
  {
    if cs != [] {
      assert Last(cs) == cs[|cs| - 1];
      SoloNoCrowding(Front(cs), s, draw, window);
    }
  }

  lemma SoloCost(s: FrozenScenario, policy: PenaltyPolicy, draw: string, window: string)
    requires ValidScenario(s, policy)
    ensures Cost(s, Solo(s, draw, window)) == SumOver(SortedDraws(s), DrawCost(Solo(s, draw, window)))
  {
    forall k | 0 <= k < |s.concentrationPairs| ensures s.concentrationPairs[k].left != s.concentrationPairs[k].right {
      assert ValidConcentration(s.concentrationPairs[k], DrawIds(s.draws));
    }
    SoloNoCrowding(s.concentrationPairs, s, draw, window);
    SortBySorts(s.draws, DrawKey);
    SumOverPermuted(SortedDraws(s), s.draws, DrawCost(Solo(s, draw, window)));
  }

  /** Placing one live draw alone never costs more than the economic energy of any bitstring plus the swing. */
  lemma SoloWithinSwing(s: FrozenScenario, policy: PenaltyPolicy, d: Draw, w: Window, x: Bits)
    requires ValidScenario(s, policy) && d in s.draws && w in s.windows && Live(d, w)
    ensures Cost(s, Solo(s, d.id, w.id)) <= EconomicEnergy(s, x) + DeltaOf(s)
  {
    var v, ds, cs, ws, sched := VariablesOf(s), SortedDraws(s), SortedConcentration(s), s.windows, Solo(s, d.id, w.id);
    EveryDrawNamed(ds, ws);
    SoloCost(s, policy, d.id, w.id);
    SoloListed(s, policy, d, w);
    ObjectiveSwing(v, ds, ws, sched, x);
    NothingOn(ConcentrationSteps(v, cs, ws), x);
    StepsEnergyConcat(ObjectiveSteps(v, ds, ws), ConcentrationSteps(v, cs, ws), x);
    StepsWeightConcat(ObjectiveSteps(v, ds, ws), ConcentrationSteps(v, cs, ws));
  }

  lemma SoloListed(s: FrozenScenario, policy: PenaltyPolicy, d: Draw, w: Window)
    requires ValidScenario(s, policy) && d in s.draws && w in s.windows && Live(d, w)
    ensures forall i :: 0 <= i < |SortedDraws(s)| ==>
              SlotListed(VariablesOf(s), SortedDraws(s)[i], s.windows, SlotOf(Solo(s, d.id, w.id), SortedDraws(s)[i].id))
  {
    var v, ds, ws := VariablesOf(s), SortedDraws(s), s.windows;
    SortedDrawsUnique(s);
    assert d in ds;
    var n :| 0 <= n < |ds| && ds[n] == d;
    var m :| 0 <= m < |ws| && ws[m] == w;
    NameVariablesKeys(ds, ws);
    LiveKeysCover(ds, ws, n, m);
  }

  lemma PlacedCounts(v: Variables, x: Bits, draw: string, ws: seq<Window>, j: nat)
    requires j < |ws| && Placed(v, x, draw, ws[j].id)
    ensures PlacedCount(v, x, draw, ws) >= 1
  {
    PlacedCountZero(v, x, draw, ws);
  }

  lemma TwoSlots(v: Variables, x: Bits, ds: seq<Draw>, ws: seq<Window>, c: Collision, m: nat)
    requires Named(v, ds) && m < |ds| && ds[m] == c.other && Collides(v, ds, ws, c)
    requires On(x, c.p) && On(x, v.zBit[ds[m].id])
    ensures SlotCount(v, x, ds[m], ws) != 1
  {
    var j :| 0 <= j < |ws| && ws[j] == c.otherWindow;
    PlacedCounts(v, x, ds[m].id, ws, j);
  }

  lemma SoloSlots(s: FrozenScenario, policy: PenaltyPolicy, draw: string, window: string, i: nat)
    requires ValidScenario(s, policy) && i < |SortedDraws(s)|
    ensures SlotOf(Solo(s, draw, window), SortedDraws(s)[i].id)
         == if SortedDraws(s)[i].id == draw then In(window) else Deferred
  {
    DrawIdsPermuted(s, policy);
    assert DrawKnown(SortedDraws(s), SortedDraws(s)[i].id);
    DrawIdsAre(SortedDraws(s), SortedDraws(s)[i].id);
  }

  lemma CollidingIndices(v: Variables, ds: seq<Draw>, ws: seq<Window>, c: Collision) returns (n: nat, m: nat)
    requires Collides(v, ds, ws, c)
    ensures n < |ds| && m < |ds| && ds[n] == c.owner && ds[m] == c.other && ds[m].id != ds[n].id
    ensures c.p < |v.symbols| && v.symbols[c.p] == XSymbol(c.owner.id, c.ownerWindow.id)
  {
    n :| 0 <= n < |ds| && ds[n] == c.owner;
    m :| 0 <= m < |ds| && ds[m] == c.other;
  }

  /** A bitstring for the owner placed alone gives the other draw two slots. */
  lemma CollisionBreaksCardinality(s: FrozenScenario, policy: PenaltyPolicy, c: Collision, x: Bits)
    requires ValidScenario(s, policy) && ValidPolicy(policy)
    requires Collides(VariablesOf(s), SortedDraws(s), s.windows, c)
    requires Decodes(VariablesOf(s).symbols, x, SortedDraws(s), Solo(s, c.owner.id, c.ownerWindow.id))
    ensures CardinalityEnergy(s, policy.cardinality, x) != 0
  {
    var v, ds, ws, sched := VariablesOf(s), SortedDraws(s), s.windows, Solo(s, c.owner.id, c.ownerWindow.id);
    SortedDrawsUnique(s);
    EveryDrawNamed(ds, ws);
    NameVariablesOnce(ds, ws, |ds|);
    assert ds[..|ds|] == ds;
    CardinalityMeaning(v, ds, ws, policy.cardinality, x);
    hide ValidScenario, Collides, Decodes, Solo, SortedDraws, NameVariables, SymbolsOnce, SlotCount;
    var n, m := CollidingIndices(v, ds, ws, c);
    SoloSlots(s, policy, c.owner.id, c.ownerWindow.id, n);
    SoloSlots(s, policy, c.owner.id, c.ownerWindow.id, m);
    OwnerBitOn(v, x, ds, sched, n, c);
    OtherDeferredOn(v, x, ds, sched, m);
    TwoSlots(v, x, ds, ws, c, m);
  }

  lemma OwnerBitOn(v: Variables, x: Bits, ds: seq<Draw>, sched: Schedule, n: nat, c: Collision)
    requires SymbolsOnce(v) && n < |ds| && ds[n] == c.owner && Decodes(v.symbols, x, ds, sched)
    requires SlotOf(sched, c.owner.id) == In(c.ownerWindow.id)
    requires c.p < |v.symbols| && v.symbols[c.p] == XSymbol(c.owner.id, c.ownerWindow.id)
    ensures On(x, c.p)
  {
    assert HasSlot(v.symbols, x, ds[n].id, SlotOf(sched, ds[n].id));
    var p: nat :| SlotIs(v.symbols, x, ds[n].id, p, SlotOf(sched, ds[n].id));
    assert v.symbols[p] == XSymbol(c.owner.id, c.ownerWindow.id);
    assert !(p < c.p) && !(c.p < p);
  }

  lemma OtherDeferredOn(v: Variables, x: Bits, ds: seq<Draw>, sched: Schedule, m: nat)
    requires SymbolsOnce(v) && m < |ds| && ds[m].id in v.zBit && Decodes(v.symbols, x, ds, sched)
    requires SlotOf(sched, ds[m].id) == Deferred
    ensures On(x, v.zBit[ds[m].id])
  {
    assert HasSlot(v.symbols, x, ds[m].id, SlotOf(sched, ds[m].id));
    var p: nat :| SlotIs(v.symbols, x, ds[m].id, p, SlotOf(sched, ds[m].id));
    var q := v.zBit[ds[m].id];
    assert v.symbols[p] == v.symbols[q];
    assert !(p < q) && !(q < p);
  }

  /** With a colliding live pair, no bitstring for the owner placed alone comes at that schedule's cost. */
  lemma CollisionCostsMore(s: FrozenScenario, policy: PenaltyPolicy, c: Collision, x: Bits)
    requires Compile(s, policy).Compiled?
    requires Collides(VariablesOf(s), SortedDraws(s), s.windows, c)
    requires Decodes(Compile(s, policy).artifact.symbols, x, s.draws, Solo(s, c.owner.id, c.ownerWindow.id))
    ensures ArtifactEnergy(s, policy, x) > Cost(s, Solo(s, c.owner.id, c.ownerWindow.id)) as real
  {
    hide Compile, Decodes, Collides, ArtifactEnergy, Solo;
    CompiledMeans(s, policy);
    var sched, all := Solo(s, c.owner.id, c.ownerWindow.id), Compile(s, policy).artifact.symbols;
    ArtifactSymbols(s, policy);
    SortedDrawsUnique(s);
    DrawIdsPermuted(s, policy);
    DecodesPermuted(all, x, s.draws, SortedDraws(s), sched);
    DecodesIgnoresSlack(VariablesOf(s).symbols, all, x, SortedDraws(s), sched);
    CollisionBreaksCardinality(s, policy, c, x);
    CardinalityAboveFloor(s, policy, x);
    PrecedenceMeaning(VariablesOf(s), SortedPrecedence(s), s.windows, policy.precedence, x);
    SortedDrawsPositive(s);
    BudgetsNonNegative(StateBeforeBudgets(s, policy), VariablesOf(s), SortedDraws(s), s.windows, policy, x);
    ArtifactEnergyDecomposes(s, policy, x);
    OwnerLive(s, c);
    SoloWithinSwing(s, policy, c.owner, c.ownerWindow, x);
  }

  lemma OwnerLive(s: FrozenScenario, c: Collision)
    requires UniqueDraws(s.draws) && Collides(VariablesOf(s), SortedDraws(s), s.windows, c)
    ensures c.owner in s.draws && c.ownerWindow in s.windows && Live(c.owner, c.ownerWindow)
  {
    SortedDrawsUnique(s);
  }

  lemma KeysDistinctOfSorted(s: FrozenScenario)
    requires UniqueDraws(s.draws) && KeysDistinct(SortedDraws(s), s.windows)
    ensures KeysDistinct(s.draws, s.windows)
  {
    SortedDrawsUnique(s);
    hide SortedDraws, BitKey, Live;
    var ds, ws := SortedDraws(s), s.windows;
    forall i, j, k, l | 0 <= i < |s.draws| && 0 <= j < |ws| && 0 <= k < |s.draws| && 0 <= l < |ws|
                        && Live(s.draws[i], ws[j]) && BitKey(s.draws[i].id, ws[j].id) == BitKey(s.draws[k].id, ws[l].id)
      ensures i == k && j == l
    {
      assert s.draws[i] in ds && s.draws[k] in ds;
      var a :| 0 <= a < |ds| && ds[a] == s.draws[i];
      var b :| 0 <= b < |ds| && ds[b] == s.draws[k];
      SameKeySamePair(ds, ws, a, j, b, l);
      UniqueIndex(s.draws, i, k);
    }
  }

  lemma DistinctKeysAreFaithful(s: FrozenScenario, policy: PenaltyPolicy)
    requires Compile(s, policy).Compiled? && KeysDistinct(s.draws, s.windows)
    ensures FaithfulEncoding(s, policy)
  {
    hide Compile, Decodes, Feasible, KeysDistinct, PenaltyFree, ArtifactEnergy;
    CompiledMeans(s, policy);
    forall sched: Schedule | Feasible(s, sched) ensures EncodedAtCost(s, policy, sched) {
      FeasibleSchedulesEncoded(s, policy, sched);
      assert Encodes(s, policy, Encode(s, sched), sched);
    }
  }

  lemma CollisionsAreUnfaithful(s: FrozenScenario, policy: PenaltyPolicy)
    requires Compile(s, policy).Compiled? && !KeysDistinct(s.draws, s.windows)
    ensures !FaithfulEncoding(s, policy)
  {
    CompiledMeans(s, policy);
    SortedDrawsUnique(s);
    if KeysDistinct(SortedDraws(s), s.windows) { KeysDistinctOfSorted(s); }
    hide Compile, Decodes, Collides, ArtifactEnergy, Solo, Feasible, KeysDistinct, ValidScenario;
    var c := FindCollision(SortedDraws(s), s.windows);
    var sched := Solo(s, c.owner.id, c.ownerWindow.id);
    OwnerLive(s, c);
    SoloFeasible(s, policy, c.owner, c.ownerWindow);
    if EncodedAtCost(s, policy, sched) {
      var x: Bits :| Encodes(s, policy, x, sched);
      CollisionCostsMore(s, policy, c, x);
    }
  }

  /** Two pairs with bars in their ids that join to the same key. */
  lemma BarsCanCollide(d: Draw, e: Draw, w: Window, u: Window)
    requires d.id == "a" && w.id == "b|c" && e.id == "a|b" && u.id == "c" && Live(d, w)
    ensures !KeysDistinct([d, e], [w, u])
  {
    var draws, ws := [d, e], [w, u];
    assert BitKey("a", "b|c") == "a|b|c" == BitKey("a|b", "c");
    assert BitKey(draws[0].id, ws[0].id) == BitKey(draws[1].id, ws[1].id);
  }

  /** The encoding is faithful exactly when no live pair shares its joined key with another pair. */
  lemma FaithfulExactlyWhenKeysDistinct(s: FrozenScenario, policy: PenaltyPolicy)
    requires Compile(s, policy).Compiled?
    ensures FaithfulEncoding(s, policy) <==> KeysDistinct(s.draws, s.windows)
  {
    if KeysDistinct(s.draws, s.windows) {
      DistinctKeysAreFaithful(s, policy);
    } else {
      CollisionsAreUnfaithful(s, policy);
    }
  }
}
