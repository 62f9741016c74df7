/**
 * The problem the compiler is given, stated without bits: schedules, when they
 * are feasible for a scenario, what they cost, and how a bitstring is read as one.
 */
module Schedules {
  import opened Sums
  import opened QuadraticForm
  import opened Scenario
  import opened CompilerSpec

  datatype Slot = In(window: string) | Deferred

  /** A slot for each draw, by draw id. */
  type Schedule = map<string, Slot>

  function SlotCost(d: Draw, slot: Slot): int {
    match slot
    case In(w) => Delay(d.delayCost, w) - d.utility
    case Deferred => d.deferralCost
  }

  function SlotOf(sched: Schedule, id: string): Slot {
    if id in sched then sched[id] else Deferred
  }

  function DrawCost(sched: Schedule): Draw -> int {
    (d: Draw) => SlotCost(d, SlotOf(sched, d.id))
  }

  predicate Together(sched: Schedule, left: string, right: string) {
    SlotOf(sched, left).In? && SlotOf(sched, left) == SlotOf(sched, right)
  }

  function CrowdingCost(sched: Schedule): Concentration -> int {
    (c: Concentration) => if Together(sched, c.left, c.right) then c.weight else 0
  }

  function Cost(s: FrozenScenario, sched: Schedule): int {
    SumOver(s.draws, DrawCost(sched)) + SumOver(s.concentrationPairs, CrowdingCost(sched))
  }

  function AmountIn(sched: Schedule, window: string): Draw -> int {
    (d: Draw) => if SlotOf(sched, d.id) == In(window) then d.amountMinor else 0
  }

  /** The full minor units a schedule puts into a window. */
  function WindowLoad(draws: seq<Draw>, sched: Schedule, window: string): int {
    SumOver(draws, AmountIn(sched, window))
  }

  ghost predicate InOrder(sched: Schedule, pr: Precedence, ws: seq<Window>) {
    forall a, b | 0 <= a < |ws| && 0 <= b < |ws| ::
      SlotOf(sched, pr.after) == In(ws[a].id) && SlotOf(sched, pr.before) == In(ws[b].id) ==> b < a
  }

  ghost predicate Feasible(s: FrozenScenario, sched: Schedule) {
    && sched.Keys == DrawIds(s.draws)
    && (forall i :: 0 <= i < |s.draws| ==>
         (SlotOf(sched, s.draws[i].id).In? ==> SlotOf(sched, s.draws[i].id).window in s.draws[i].windowEligibility))
    && (forall j :: 0 <= j < |s.windows| ==> WindowLoad(s.draws, sched, s.windows[j].id) <= s.windows[j].liquidityCapMinor)
    && (forall k :: 0 <= k < |s.precedence| ==> InOrder(sched, s.precedence[k], s.windows))
  }

  ghost predicate Optimal(s: FrozenScenario, sched: Schedule) {
    Feasible(s, sched) && forall other: Schedule :: Feasible(s, other) ==> Cost(s, sched) <= Cost(s, other)
  }

  // ---------------------------------------------------------------------------
  // Reading a bitstring through the symbol table
  // ---------------------------------------------------------------------------

  predicate Names(sym: Symbol, id: string) {
    !sym.SlackSymbol? && sym.draw == id
  }

  function NamedSlot(sym: Symbol): Slot
    requires !sym.SlackSymbol?
  {
    match sym
    case XSymbol(_, w) => In(w)
    case ZSymbol(_) => Deferred
  }

  /** `p` is the one bit that is on among those named after draw `id`. */
  ghost predicate OnlyOn(symbols: seq<Symbol>, x: Bits, id: string, p: nat) {
    && p < |symbols| && Names(symbols[p], id) && On(x, p)
    && (forall q: nat :: q < |symbols| && Names(symbols[q], id) && On(x, q) ==> q == p)
  }

  ghost predicate SlotIs(symbols: seq<Symbol>, x: Bits, id: string, p: nat, slot: Slot) {
    OnlyOn(symbols, x, id, p) && slot == NamedSlot(symbols[p])
  }

  ghost predicate HasSlot(symbols: seq<Symbol>, x: Bits, id: string, slot: Slot) {
    exists p: nat :: SlotIs(symbols, x, id, p, slot)
  }

  /** The bitstring gives every draw exactly one slot, and those slots are `sched`. */
  ghost predicate Decodes(symbols: seq<Symbol>, x: Bits, draws: seq<Draw>, sched: Schedule) {
    && sched.Keys == DrawIds(draws)
    && (forall i :: 0 <= i < |draws| ==> HasSlot(symbols, x, draws[i].id, SlotOf(sched, draws[i].id)))
  }
}
