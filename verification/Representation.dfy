/** Bitstrings that give every draw one slot, the schedules they stand for, and their economic energy. */
module Representation {
  import opened Sums
  import opened QuadraticForm
  import opened Scenario
  import opened CompilerSpec
  import opened Schedules
  import opened VariableTable
  import opened EnergyTerms
  import opened PenaltyTerms

  /** The x bits of `draw` say exactly `slot`. */
  ghost predicate PlacedAs(v: Variables, x: Bits, draw: string, ws: seq<Window>, slot: Slot) {
    && (forall j :: 0 <= j < |ws| ==> (Placed(v, x, draw, ws[j].id) <==> slot == In(ws[j].id)))
    && (slot.In? ==> WindowKnown(ws, slot.window))
  }

  ghost predicate DrawAs(v: Variables, x: Bits, draw: string, ws: seq<Window>, slot: Slot) {
    && draw in v.zBit
    && PlacedAs(v, x, draw, ws, slot)
    && (On(x, v.zBit[draw]) <==> slot == Deferred)
  }

  ghost predicate Represents(v: Variables, x: Bits, draws: seq<Draw>, ws: seq<Window>, sched: Schedule) {
    && sched.Keys == DrawIds(draws)
    && (forall i :: 0 <= i < |draws| ==> DrawAs(v, x, draws[i].id, ws, SlotOf(sched, draws[i].id)))
  }

  // ---------------------------------------------------------------------------
  // One slot per draw
  // ---------------------------------------------------------------------------

  /** The slot the bits of a draw point at: its last window that is on, or deferral. */
  function ReadSlot(v: Variables, x: Bits, draw: string, ws: seq<Window>): Slot {
    if ws == [] then Deferred
    else if Placed(v, x, draw, Last(ws).id) then In(Last(ws).id)
    else ReadSlot(v, x, draw, Front(ws))
  }

  lemma {:induction false} ReadSlotOfNone(v: Variables, x: Bits, draw: string, ws: seq<Window>)
    requires forall j :: 0 <= j < |ws| ==> !Placed(v, x, draw, ws[j].id)
    ensures ReadSlot(v, x, draw, ws) == Deferred
  {
    if ws != [] {
      assert !Placed(v, x, draw, ws[|ws| - 1].id);
      ReadSlotOfNone(v, x, draw, Front(ws));
    }
  }

  lemma {:induction false} ReadSlotOfOne(v: Variables, x: Bits, draw: string, ws: seq<Window>, k: nat)
    requires k < |ws| && forall j :: 0 <= j < |ws| ==> (Placed(v, x, draw, ws[j].id) <==> j == k)
    ensures ReadSlot(v, x, draw, ws) == In(ws[k].id)
  {
    assert forall j :: 0 <= j < |ws| - 1 ==> ws[j] == Front(ws)[j];
    if k < |ws| - 1 {
      assert !Placed(v, x, draw, ws[|ws| - 1].id);
      ReadSlotOfOne(v, x, draw, Front(ws), k);
    } else {
      assert Placed(v, x, draw, ws[k].id);
    }
  }

  lemma OneSlotIsRead(v: Variables, x: Bits, d: Draw, ws: seq<Window>)
    requires d.id in v.zBit && UniqueWindows(ws) && SlotCount(v, x, d, ws) == 1
    ensures DrawAs(v, x, d.id, ws, ReadSlot(v, x, d.id, ws))
  {
    if On(x, v.zBit[d.id]) {
      PlacedCountZero(v, x, d.id, ws);
      ReadSlotOfNone(v, x, d.id, ws);
    } else {
      var k := PlacedCountOne(v, x, d.id, ws);
      ReadSlotOfOne(v, x, d.id, ws, k);
      assert WindowKnown(ws, ws[k].id);
    }
  }

  lemma DrawAsHasOneSlot(v: Variables, x: Bits, d: Draw, ws: seq<Window>, slot: Slot)
    requires UniqueWindows(ws) && DrawAs(v, x, d.id, ws, slot)
    ensures SlotCount(v, x, d, ws) == 1
  {
    match slot
    case Deferred =>
      PlacedCountZero(v, x, d.id, ws);
    case In(w) =>
      var k :| 0 <= k < |ws| && ws[k].id == w;
      forall j | 0 <= j < |ws| ensures Placed(v, x, d.id, ws[j].id) <==> j == k {
        assert j < k ==> ws[j].id != ws[k].id;
        assert k < j ==> ws[k].id != ws[j].id;
      }
      PlacedCountOfOne(v, x, d.id, ws, k);
  }

  function ReadSchedule(v: Variables, x: Bits, draws: seq<Draw>, ws: seq<Window>): Schedule {
    map id | id in DrawIds(draws) :: ReadSlot(v, x, id, ws)
  }

  lemma {:induction false} DrawIdsAre(draws: seq<Draw>, id: string)
    requires forall i :: 0 <= i < |draws| ==> draws[i].id != ""
    ensures id in DrawIds(draws) <==> DrawKnown(draws, id)
  {
    if draws != [] {
      DrawIdsAre(Front(draws), id);
      assert forall i :: 0 <= i < |draws| - 1 ==> draws[i] == Front(draws)[i];
      if DrawKnown(Front(draws), id) {
        var i :| 0 <= i < |draws| - 1 && Front(draws)[i].id == id;
        assert draws[i].id == id;
      }
      assert Last(draws) == draws[|draws| - 1];
    }
  }

  /** One slot per draw is the same as standing for a schedule. */
  lemma OneSlotEachMeansSchedule(v: Variables, x: Bits, draws: seq<Draw>, ws: seq<Window>)
    requires Named(v, draws) && UniqueWindows(ws) && forall i :: 0 <= i < |draws| ==> draws[i].id != ""
    requires forall i :: 0 <= i < |draws| ==> SlotCount(v, x, draws[i], ws) == 1
    ensures Represents(v, x, draws, ws, ReadSchedule(v, x, draws, ws))
  {
    var sched := ReadSchedule(v, x, draws, ws);
    forall i | 0 <= i < |draws| ensures DrawAs(v, x, draws[i].id, ws, SlotOf(sched, draws[i].id)) {
      assert DrawKnown(draws, draws[i].id);
      DrawIdsAre(draws, draws[i].id);
      OneSlotIsRead(v, x, draws[i], ws);
    }
  }

  // ---------------------------------------------------------------------------
  // The economic energy of a schedule
  // ---------------------------------------------------------------------------

  lemma WindowKnownSplit(ws: seq<Window>, id: string)
    requires ws != []
    ensures WindowKnown(ws, id) <==> WindowKnown(Front(ws), id) || Last(ws).id == id
  {
    if WindowKnown(Front(ws), id) {
      var j :| 0 <= j < |ws| - 1 && Front(ws)[j].id == id;
      assert ws[j].id == id;
    }
    assert Last(ws) == ws[|ws| - 1];
    if WindowKnown(ws, id) && Last(ws).id != id {
      var j :| 0 <= j < |ws| && ws[j].id == id;
      assert Front(ws)[j].id == id;
    }
  }

  lemma LastIsNew(ws: seq<Window>)
    requires ws != [] && UniqueWindows(ws)
    ensures !WindowKnown(Front(ws), Last(ws).id) && UniqueWindows(Front(ws))
  {
    assert forall j :: 0 <= j < |ws| - 1 ==> Front(ws)[j] == ws[j] && ws[j].id != ws[|ws| - 1].id;
  }

  lemma {:induction false} SumOfNothing(ws: seq<Window>, f: Window -> int)
    requires forall j :: 0 <= j < |ws| ==> f(ws[j]) == 0
    ensures SumOver(ws, f) == 0
  {
    if ws != [] {
      assert forall j :: 0 <= j < |ws| - 1 ==> ws[j] == Front(ws)[j];
      assert Last(ws) == ws[|ws| - 1];
      SumOfNothing(Front(ws), f);
    }
  }

  /** A sum over windows with one summand, that of the window called `id`. */
  lemma {:induction false} SumOfOne(ws: seq<Window>, f: Window -> int, id: string, value: int)
    requires UniqueWindows(ws) && forall j :: 0 <= j < |ws| ==> f(ws[j]) == if ws[j].id == id then value else 0
    ensures SumOver(ws, f) == if WindowKnown(ws, id) then value else 0
  {
    if ws != [] {
      assert forall j :: 0 <= j < |ws| - 1 ==> ws[j] == Front(ws)[j];
      assert Last(ws) == ws[|ws| - 1];
      LastIsNew(ws);
      SumOfOne(Front(ws), f, id, value);
      WindowKnownSplit(ws, id);
    }
  }

  lemma DrawEnergy(v: Variables, x: Bits, d: Draw, ws: seq<Window>, slot: Slot)
    requires UniqueWindows(ws) && DrawAs(v, x, d.id, ws, slot)
    ensures DrawValue(v, x, ws)(d) == SlotCost(d, slot)
  {
    hide Placed, Delay;
    match slot
    case In(id) => SumOfOne(ws, PlacementValue(v, x, d), id, Delay(d.delayCost, id) - d.utility);
    case Deferred => SumOfNothing(ws, PlacementValue(v, x, d));
  }

  lemma ObjectiveEnergy(v: Variables, x: Bits, draws: seq<Draw>, ws: seq<Window>, sched: Schedule)
    requires Named(v, draws) && UniqueWindows(ws)
    requires forall i :: 0 <= i < |draws| ==> DrawAs(v, x, draws[i].id, ws, SlotOf(sched, draws[i].id))
    ensures StepsEnergy(ObjectiveSteps(v, draws, ws), x) == SumOver(draws, DrawCost(sched))
  {
    ObjectiveTotal(v, draws, ws, x);
    hide DrawAs, DrawValue, SlotCost;
    forall d | d in draws ensures DrawValue(v, x, ws)(d) == DrawCost(sched)(d) {
      var i :| 0 <= i < |draws| && draws[i] == d;
      DrawEnergy(v, x, d, ws, SlotOf(sched, d.id));
    }
    SumOverSame(draws, DrawValue(v, x, ws), DrawCost(sched));
  }

  lemma CrowdingEnergy(v: Variables, x: Bits, c: Concentration, ws: seq<Window>, l: Slot, r: Slot)
    requires UniqueWindows(ws)
    requires forall j :: 0 <= j < |ws| ==> (Placed(v, x, c.left, ws[j].id) <==> l == In(ws[j].id))
    requires forall j :: 0 <= j < |ws| ==> (Placed(v, x, c.right, ws[j].id) <==> r == In(ws[j].id))
    ensures CrowdingValue(v, x, ws)(c) == if l.In? && l == r && WindowKnown(ws, l.window) then c.weight else 0
  {
    hide Placed;
    if l.In? && l == r {
      SumOfOne(ws, SharedValue(v, x, c), l.window, c.weight);
    } else {
      SumOfNothing(ws, SharedValue(v, x, c));
    }
  }

  lemma PairEnergy(v: Variables, x: Bits, c: Concentration, draws: seq<Draw>, ws: seq<Window>, sched: Schedule)
    requires UniqueWindows(ws) && DrawKnown(draws, c.left) && DrawKnown(draws, c.right)
    requires forall i :: 0 <= i < |draws| ==> DrawAs(v, x, draws[i].id, ws, SlotOf(sched, draws[i].id))
    ensures CrowdingValue(v, x, ws)(c) == CrowdingCost(sched)(c)
  {
    hide Placed;
    var i :| 0 <= i < |draws| && draws[i].id == c.left;
    var j :| 0 <= j < |draws| && draws[j].id == c.right;
    CrowdingEnergy(v, x, c, ws, SlotOf(sched, c.left), SlotOf(sched, c.right));
  }

  lemma ConcentrationEnergy(v: Variables, x: Bits, cs: seq<Concentration>, draws: seq<Draw>, ws: seq<Window>, sched: Schedule)
    requires UniqueWindows(ws)
    requires forall i :: 0 <= i < |draws| ==> DrawAs(v, x, draws[i].id, ws, SlotOf(sched, draws[i].id))
    requires forall k :: 0 <= k < |cs| ==> DrawKnown(draws, cs[k].left) && DrawKnown(draws, cs[k].right)
    ensures StepsEnergy(ConcentrationSteps(v, cs, ws), x) == SumOver(cs, CrowdingCost(sched))
  {
    ConcentrationTotal(v, cs, ws, x);
    hide DrawAs, CrowdingValue, DrawKnown, Together;
    forall c | c in cs ensures CrowdingValue(v, x, ws)(c) == CrowdingCost(sched)(c) {
      var k :| 0 <= k < |cs| && cs[k] == c;
      PairEnergy(v, x, c, draws, ws, sched);
    }
    SumOverSame(cs, CrowdingValue(v, x, ws), CrowdingCost(sched));
  }

  // ---------------------------------------------------------------------------
  // The load of a window
  // ---------------------------------------------------------------------------

  lemma {:induction false} SelectedLoadIsWindowLoad(v: Variables, x: Bits, draws: seq<Draw>, ws: seq<Window>, sched: Schedule, j: nat)
    requires j < |ws|
    requires forall i :: 0 <= i < |draws| ==> DrawAs(v, x, draws[i].id, ws, SlotOf(sched, draws[i].id))
    ensures SelectedLoad(Members(v, draws, ws[j].id), x) == WindowLoad(draws, sched, ws[j].id)
  {
    if draws != [] {
      var front, d := Front(draws), Last(draws);
      assert forall i :: 0 <= i < |draws| - 1 ==> draws[i] == front[i];
      assert d == draws[|draws| - 1];
      SelectedLoadIsWindowLoad(v, x, front, ws, sched, j);
      var ms, rest := Members(v, draws, ws[j].id), Members(v, front, ws[j].id);
      assert Placed(v, x, d.id, ws[j].id) <==> SlotOf(sched, d.id) == In(ws[j].id);
      if HasX(v, d.id, ws[j].id) {
        assert Front(ms) == rest;
        assert Front(Amounts(ms)) == Amounts(rest);
        assert Front(Selection(ms, x)) == Selection(rest, x);
      } else {
        assert ms == rest;
      }
    }
  }

  lemma {:induction false} MembersFit(v: Variables, draws: seq<Draw>, w: Window)
    requires forall i :: 0 <= i < |draws| ==> Resolves(v, draws[i], w)
    ensures forall i :: 0 <= i < |Members(v, draws, w.id)| ==> Members(v, draws, w.id)[i].amount <= w.liquidityCapMinor
  {
    if draws != [] {
      assert forall i :: 0 <= i < |draws| - 1 ==> draws[i] == Front(draws)[i];
      MembersFit(v, Front(draws), w);
      assert Resolves(v, draws[|draws| - 1], w);
    }
  }

  // ---------------------------------------------------------------------------
  // Decoding through the symbol table
  // ---------------------------------------------------------------------------

  lemma DrawAsIsOnlyOn(v: Variables, x: Bits, draws: seq<Draw>, ws: seq<Window>, i: nat, slot: Slot) returns (p: nat)
    requires Resolved(v, draws, ws) && i < |draws| && DrawAs(v, x, draws[i].id, ws, slot)
    ensures OnlyOn(v.symbols, x, draws[i].id, p) && slot == NamedSlot(v.symbols[p])
  {
    var id := draws[i].id;
    match slot {
      case Deferred => p := v.zBit[id];
      case In(w) =>
        var j :| 0 <= j < |ws| && ws[j].id == w;
        assert Placed(v, x, id, ws[j].id);
        assert Resolves(v, draws[i], ws[j]);
        p := XBit(v, id, w);
    }
    forall q: nat | q < |v.symbols| && Names(v.symbols[q], id) && On(x, q) ensures q == p {
      match v.symbols[q] {
        case ZSymbol(_) =>
        case XSymbol(a, b) =>
          assert WindowKnown(ws, b);
          var j :| 0 <= j < |ws| && ws[j].id == b;
          assert Placed(v, x, id, ws[j].id);
      }
    }
  }

  lemma OnlyOnIsDrawAs(v: Variables, x: Bits, draws: seq<Draw>, ws: seq<Window>, i: nat, p: nat)
    requires Resolved(v, draws, ws) && i < |draws| && OnlyOn(v.symbols, x, draws[i].id, p)
    ensures DrawAs(v, x, draws[i].id, ws, NamedSlot(v.symbols[p]))
  {
    var id, slot := draws[i].id, NamedSlot(v.symbols[p]);
    if slot.In? {
      assert WindowKnown(ws, slot.window);
    }
    forall j | 0 <= j < |ws| ensures Placed(v, x, id, ws[j].id) <==> slot == In(ws[j].id) {
      assert Resolves(v, draws[i], ws[j]);
      if Placed(v, x, id, ws[j].id) {
        var q := XBit(v, id, ws[j].id);
        assert Names(v.symbols[q], id) && On(x, q);
      }
    }
    var z := v.zBit[id];
    assert v.symbols[z] == ZSymbol(id) && Names(v.symbols[z], id);
  }

  /** Slack symbols name no draw, so appending them leaves the decoding alone. */
  lemma DecodesIgnoresSlack(symbols: seq<Symbol>, all: seq<Symbol>, x: Bits, draws: seq<Draw>, sched: Schedule)
    requires symbols <= all && forall p :: |symbols| <= p < |all| ==> all[p].SlackSymbol?
    ensures Decodes(all, x, draws, sched) <==> Decodes(symbols, x, draws, sched)
  {
    forall id: string, p: nat, slot: Slot
      ensures SlotIs(all, x, id, p, slot) <==> SlotIs(symbols, x, id, p, slot)
    {
      assert forall q: nat :: q < |symbols| ==> all[q] == symbols[q];
    }
  }

  /** Standing for a schedule through the lookups is decoding to it through the symbol table. */
  lemma RepresentsIsDecodes(v: Variables, x: Bits, draws: seq<Draw>, ws: seq<Window>, sched: Schedule)
    requires Resolved(v, draws, ws)
    ensures Represents(v, x, draws, ws, sched) <==> Decodes(v.symbols, x, draws, sched)
  {
    if Represents(v, x, draws, ws, sched) {
      forall i | 0 <= i < |draws| ensures HasSlot(v.symbols, x, draws[i].id, SlotOf(sched, draws[i].id)) {
        var p := DrawAsIsOnlyOn(v, x, draws, ws, i, SlotOf(sched, draws[i].id));
        assert SlotIs(v.symbols, x, draws[i].id, p, SlotOf(sched, draws[i].id));
      }
    }
    if Decodes(v.symbols, x, draws, sched) {
      forall i | 0 <= i < |draws| ensures DrawAs(v, x, draws[i].id, ws, SlotOf(sched, draws[i].id)) {
        assert HasSlot(v.symbols, x, draws[i].id, SlotOf(sched, draws[i].id));
        var p: nat :| SlotIs(v.symbols, x, draws[i].id, p, SlotOf(sched, draws[i].id));
        OnlyOnIsDrawAs(v, x, draws, ws, i, p);
      }
    }
  }
}
