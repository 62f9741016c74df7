/**
 * What the compiler produces, phase by phase: the symbol table, the terms each
 * phase adds, the budget encodings, the penalty floor and the artifact.
 */
module CompilerSpec {
  import opened Sums
  import opened Ordering
  import opened QuadraticForm
  import opened Artifact
  import opened PairPruning
  import opened Slack
  import opened Scenario

  datatype Symbol = XSymbol(draw: string, window: string) | ZSymbol(draw: string) | SlackSymbol(window: string, bit: nat)

  datatype PruneReason = WindowNotEligible | AmountExceedsWindowCap

  datatype Pruned = Pruned(draw: string, window: string, reason: PruneReason)

  /** The key the compiler looks bits up by: the two ids joined by a bar. */
  function BitKey(draw: string, window: string): string {
    draw + "|" + window
  }

  // ---------------------------------------------------------------------------
  // Variables
  // ---------------------------------------------------------------------------

  datatype Variables = Variables(symbols: seq<Symbol>, pruned: seq<Pruned>, xBit: map<string, nat>, zBit: map<string, nat>)

  const NO_VARIABLES := Variables([], [], map[], map[])

  predicate Live(d: Draw, w: Window) {
    w.id in d.windowEligibility && d.amountMinor <= w.liquidityCapMinor
  }

  function NameX(v: Variables, d: Draw, w: Window): Variables {
    if w.id !in d.windowEligibility then v.(pruned := v.pruned + [Pruned(d.id, w.id, WindowNotEligible)])
    else if d.amountMinor > w.liquidityCapMinor then v.(pruned := v.pruned + [Pruned(d.id, w.id, AmountExceedsWindowCap)])
    else v.(symbols := v.symbols + [XSymbol(d.id, w.id)], xBit := v.xBit[BitKey(d.id, w.id) := |v.symbols|])
  }

  function NameXs(v: Variables, d: Draw, ws: seq<Window>): Variables {
    if ws == [] then v else NameX(NameXs(v, d, Front(ws)), d, Last(ws))
  }

  function NameZ(v: Variables, d: Draw): Variables {
    v.(symbols := v.symbols + [ZSymbol(d.id)], zBit := v.zBit[d.id := |v.symbols|])
  }

  function NameVariables(draws: seq<Draw>, ws: seq<Window>): Variables {
    if draws == [] then NO_VARIABLES else NameZ(NameXs(NameVariables(Front(draws), ws), Last(draws), ws), Last(draws))
  }

  predicate HasX(v: Variables, draw: string, window: string) {
    BitKey(draw, window) in v.xBit
  }

  function XBit(v: Variables, draw: string, window: string): nat
    requires HasX(v, draw, window)
  {
    v.xBit[BitKey(draw, window)]
  }

  predicate Named(v: Variables, draws: seq<Draw>) {
    forall i :: 0 <= i < |draws| ==> draws[i].id in v.zBit
  }

  // ---------------------------------------------------------------------------
  // Objective
  // ---------------------------------------------------------------------------

  /** The listed delay cost of a window, 0 where none is listed. */
  function Delay(es: seq<DelayEntry>, window: string): int {
    if es == [] then 0 else if es[0].window == window then es[0].cost else Delay(es[1..], window)
  }

  function PlacementCost(d: Draw, window: string): int {
    -d.utility + Delay(d.delayCost, window)
  }

  function PlacementSteps(v: Variables, d: Draw, ws: seq<Window>): seq<Step> {
    if ws == [] then []
    else PlacementSteps(v, d, Front(ws)) +
         if HasX(v, d.id, Last(ws).id) then [Linear(XBit(v, d.id, Last(ws).id), PlacementCost(d, Last(ws).id))] else []
  }

  function DrawSteps(v: Variables, d: Draw, ws: seq<Window>): seq<Step>
    requires d.id in v.zBit
  {
    PlacementSteps(v, d, ws) + [Linear(v.zBit[d.id], d.deferralCost)]
  }

  function ObjectiveSteps(v: Variables, draws: seq<Draw>, ws: seq<Window>): seq<Step>
    requires Named(v, draws)
  {
    if draws == [] then [] else ObjectiveSteps(v, Front(draws), ws) + DrawSteps(v, Last(draws), ws)
  }

  function CrowdingSteps(v: Variables, c: Concentration, ws: seq<Window>): seq<Step> {
    if ws == [] then []
    else CrowdingSteps(v, c, Front(ws)) +
         if HasX(v, c.left, Last(ws).id) && HasX(v, c.right, Last(ws).id)
         then [Pair(XBit(v, c.left, Last(ws).id), XBit(v, c.right, Last(ws).id), c.weight)] else []
  }

  function ConcentrationSteps(v: Variables, cs: seq<Concentration>, ws: seq<Window>): seq<Step> {
    if cs == [] then []
    else ConcentrationSteps(v, Front(cs), ws) + if Last(cs).weight == 0 then [] else CrowdingSteps(v, Last(cs), ws)
  }

  /** The largest economic swing a list of terms allows: the sum of absolute weights. */
  function StepsWeight(t: seq<Step>): int {
    if t == [] then 0 else StepsWeight(Front(t)) + Abs(Last(t).w)
  }

  // ---------------------------------------------------------------------------
  // Cardinality and precedence
  // ---------------------------------------------------------------------------

  datatype Constraint = Constraint(id: string, kind: Kind, penalty: int, deltaEMax: int, vMin: int, bits: set<nat>)

  function WindowBits(v: Variables, d: Draw, ws: seq<Window>): seq<nat> {
    if ws == [] then []
    else WindowBits(v, d, Front(ws)) + if HasX(v, d.id, Last(ws).id) then [XBit(v, d.id, Last(ws).id)] else []
  }

  function DrawBits(v: Variables, d: Draw, ws: seq<Window>): seq<nat>
    requires d.id in v.zBit
  {
    WindowBits(v, d, ws) + [v.zBit[d.id]]
  }

  function UnitTerms(bits: seq<nat>): (ts: seq<Term>)
    ensures |ts| == |bits|
  {
    seq(|bits|, i requires 0 <= i < |bits| => Term(bits[i], 1))
  }

  function BitSet(bits: seq<nat>): set<nat> {
    set b | b in bits
  }

  function CardinalitySteps(v: Variables, draws: seq<Draw>, ws: seq<Window>, P: int): seq<Step>
    requires Named(v, draws)
  {
    if draws == [] then []
    else CardinalitySteps(v, Front(draws), ws, P) + SquareSteps(UnitTerms(DrawBits(v, Last(draws), ws)), 1, P)
  }

  function CardinalityConstraint(v: Variables, d: Draw, ws: seq<Window>, P: int): Constraint
    requires d.id in v.zBit
  {
    Constraint("card[" + d.id + "]", Cardinality, P, 0, 1, BitSet(DrawBits(v, d, ws)))
  }

  function CardinalityConstraints(v: Variables, draws: seq<Draw>, ws: seq<Window>, P: int): seq<Constraint>
    requires Named(v, draws)
  {
    if draws == [] then []
    else CardinalityConstraints(v, Front(draws), ws, P) + [CardinalityConstraint(v, Last(draws), ws, P)]
  }

  /** `after` in window `a` against `before` in the windows `befores[0..]` at positions 0, 1, ...: forbidden from `a` on. */
  function ForbiddenWith(v: Variables, pr: Precedence, ws: seq<Window>, a: nat, k: nat, P: int): seq<Step>
    requires a < |ws| && k <= |ws| && HasX(v, pr.after, ws[a].id)
  {
    if k == 0 then []
    else ForbiddenWith(v, pr, ws, a, k - 1, P) +
         if HasX(v, pr.before, ws[k - 1].id) && a <= k - 1
         then [Pair(XBit(v, pr.after, ws[a].id), XBit(v, pr.before, ws[k - 1].id), P)] else []
  }

  function ForbiddenSteps(v: Variables, pr: Precedence, ws: seq<Window>, a: nat, P: int): seq<Step>
    requires a <= |ws|
  {
    if a == 0 then []
    else ForbiddenSteps(v, pr, ws, a - 1, P) +
         if HasX(v, pr.after, ws[a - 1].id) then ForbiddenWith(v, pr, ws, a - 1, |ws|, P) else []
  }

  function PrecedenceSteps(v: Variables, ps: seq<Precedence>, ws: seq<Window>, P: int): seq<Step> {
    if ps == [] then [] else PrecedenceSteps(v, Front(ps), ws, P) + ForbiddenSteps(v, Last(ps), ws, |ws|, P)
  }

  /** The bits that occur in a list of couplings. */
  function StepBits(t: seq<Step>): set<nat> {
    if t == [] then {}
    else StepBits(Front(t)) + match Last(t) case Linear(p, _) => {p} case Pair(p, q, _) => {p, q} case Constant(_) => {}
  }

  function PrecedenceConstraints(v: Variables, ps: seq<Precedence>, ws: seq<Window>, P: int): seq<Constraint> {
    if ps == [] then []
    else
      var bits := StepBits(ForbiddenSteps(v, Last(ps), ws, |ws|, P));
      PrecedenceConstraints(v, Front(ps), ws, P) +
      if bits == {} then []
      else [Constraint("prec[" + Last(ps).before + "<" + Last(ps).after + "]", PrecedenceKind, P, 0, 1, bits)]
  }

  lemma {:induction false} StepsWeightConcat(a: seq<Step>, b: seq<Step>)
    ensures StepsWeight(a + b) == StepsWeight(a) + StepsWeight(b)
    ensures StepBits(a + b) == StepBits(a) + StepBits(b)
  {
    if b == [] {
      assert a + b == a;
    } else {
      StepsWeightConcat(a, Front(b));
      assert Front(a + b) == a + Front(b);
    }
  }

  // ---------------------------------------------------------------------------
  // Budget
  // ---------------------------------------------------------------------------

  datatype Member = Member(amount: int, bit: nat)

  function Members(v: Variables, draws: seq<Draw>, window: string): seq<Member> {
    if draws == [] then []
    else Members(v, Front(draws), window) +
         if HasX(v, Last(draws).id, window) then [Member(Last(draws).amountMinor, XBit(v, Last(draws).id, window))] else []
  }

  function Amounts(ms: seq<Member>): (r: seq<int>)
    ensures |r| == |ms|
  {
    seq(|ms|, i requires 0 <= i < |ms| => ms[i].amount)
  }

  function MembersTotal(ms: seq<Member>): int {
    if ms == [] then 0 else MembersTotal(Front(ms)) + Last(ms).amount
  }

  /** The over-cap couplings of member `m` with each of `ms`, in order. */
  function OverCapRow(m: Member, ms: seq<Member>, cap: int, P: int): seq<Step> {
    if ms == [] then []
    else OverCapRow(m, Front(ms), cap, P) + if m.amount + Last(ms).amount > cap then [Pair(m.bit, Last(ms).bit, P)] else []
  }

  function OverCapPairs(ms: seq<Member>, k: nat, cap: int, P: int): seq<Step>
    requires k <= |ms|
  {
    if k == 0 then [] else OverCapPairs(ms, k - 1, cap, P) + OverCapRow(ms[k - 1], ms[k..], cap, P)
  }

  predicate PositiveMembers(ms: seq<Member>) {
    forall i :: 0 <= i < |ms| ==> ms[i].amount > 0
  }

  function NatAmounts(ms: seq<Member>): (r: seq<nat>)
    requires PositiveMembers(ms)
    ensures r == Amounts(ms)
  {
    seq(|ms|, i requires 0 <= i < |ms| => ms[i].amount)
  }

  function MemberTerms(ms: seq<Member>, unit: nat): (ts: seq<Term>)
    requires PositiveMembers(ms) && unit > 0
    ensures |ts| == |ms|
  {
    seq(|ms|, i requires 0 <= i < |ms| => Term(ms[i].bit, ms[i].amount / unit))
  }

  /** Slack bits `from`, `from + 1`, ... weigh 1, 2, 4, ... units. */
  function SlackTerms(from: nat, k: nat): (ts: seq<Term>)
    ensures |ts| == k
  {
    if k == 0 then [] else SlackTerms(from, k - 1) + [Term(from + k - 1, Pow2(k - 1))]
  }

  function SlackSymbols(window: string, k: nat): (r: seq<Symbol>)
    ensures |r| == k
  {
    if k == 0 then [] else SlackSymbols(window, k - 1) + [SlackSymbol(window, k - 1)]
  }

  datatype Encoding = NoBudget | PairPruned | SlackEncoded

  datatype BudgetState = BudgetState(
    form: Form,
    symbols: seq<Symbol>,
    constraints: seq<Constraint>,
    encodings: map<string, Encoding>,
    units: map<string, nat>,
    refusals: seq<Refusal>)

  /** Which encoding a window gets, before the policy's slack allowance is looked at. */
  function EncodingOf(ms: seq<Member>, cap: int): Encoding {
    if MembersTotal(ms) <= cap then NoBudget
    else if PairPrune(Amounts(ms), cap) == Exact then PairPruned
    else SlackEncoded
  }

  function BudgetTerms(ms: seq<Member>, cap: nat, from: nat): seq<Term>
    requires PositiveMembers(ms) && cap > 0
  {
    UnitDivides(NatAmounts(ms), cap);
    MemberTerms(ms, Unit(NatAmounts(ms), cap)) + SlackTerms(from, SlackWidth(NatAmounts(ms), cap))
  }

  function BudgetStep(st: BudgetState, ms: seq<Member>, w: Window, policy: PenaltyPolicy): BudgetState
    requires PositiveMembers(ms) && w.liquidityCapMinor > 0
  {
    var cap := w.liquidityCapMinor;
    match EncodingOf(ms, cap)
    case NoBudget => st.(encodings := st.encodings[w.id := NoBudget])
    case PairPruned =>
      var steps := OverCapPairs(ms, |ms|, cap, policy.budget);
      st.(form := Apply(st.form, steps),
          encodings := st.encodings[w.id := PairPruned],
          constraints := st.constraints
            + [Constraint("budget[" + w.id + "]", BudgetPair, policy.budget, 0, 1, StepBits(steps))])
    case SlackEncoded =>
      var width := SlackWidth(NatAmounts(ms), cap);
      if width > policy.maxSlackBits then st.(refusals := st.refusals + [SlackBitsExceedPolicy(w.id)])
      else
        UnitDivides(NatAmounts(ms), cap);
        var unit := Unit(NatAmounts(ms), cap);
        var terms := BudgetTerms(ms, cap, |st.symbols|);
        BudgetState(
          Apply(Grow(st.form, width), SquareSteps(terms, cap / unit, policy.budget)),
          st.symbols + SlackSymbols(w.id, width),
          st.constraints + [Constraint("budget[" + w.id + "]", BudgetSlack, policy.budget, 0, 1, TermBits(terms))],
          st.encodings[w.id := SlackEncoded],
          st.units[w.id := unit],
          st.refusals)
  }

  function TermBits(ts: seq<Term>): set<nat> {
    if ts == [] then {} else TermBits(Front(ts)) + {Last(ts).bit}
  }

  predicate PositiveAmounts(draws: seq<Draw>) {
    forall i :: 0 <= i < |draws| ==> draws[i].amountMinor > 0
  }

  predicate PositiveCaps(ws: seq<Window>) {
    forall i :: 0 <= i < |ws| ==> ws[i].liquidityCapMinor > 0
  }

  lemma {:induction false} MembersPositive(v: Variables, draws: seq<Draw>, window: string)
    requires PositiveAmounts(draws)
    ensures PositiveMembers(Members(v, draws, window))
  {
    if draws != [] {
      assert Last(draws).amountMinor > 0;
      MembersPositive(v, Front(draws), window);
    }
  }

  function Budgets(st: BudgetState, v: Variables, draws: seq<Draw>, ws: seq<Window>, policy: PenaltyPolicy): BudgetState
    requires PositiveAmounts(draws) && PositiveCaps(ws)
  {
    if ws == [] then st
    else
      MembersPositive(v, draws, Last(ws).id);
      BudgetStep(Budgets(st, v, draws, Front(ws), policy), Members(v, draws, Last(ws).id), Last(ws), policy)
  }

  // ---------------------------------------------------------------------------
  // Penalty floor and range
  // ---------------------------------------------------------------------------

  /** One refusal per constraint kind, in the order kinds first fail. */
  function FloorRefusals(cs: seq<Constraint>, deltaEMax: int): seq<Refusal> {
    if cs == [] then []
    else
      var before := FloorRefusals(Front(cs), deltaEMax);
      var r := PenaltyBelowFloor(Last(cs).kind);
      if Last(cs).penalty <= deltaEMax && r !in before then before + [r] else before
  }

  function StampDelta(cs: seq<Constraint>, deltaEMax: int): (r: seq<Constraint>)
    ensures |r| == |cs|
  {
    seq(|cs|, i requires 0 <= i < |cs| => cs[i].(deltaEMax := deltaEMax))
  }

  predicate SafeInteger(v: real) {
    Integral(v) && -(MAX_SAFE as real) <= v <= MAX_SAFE as real
  }

  predicate InExactRange(q: Qubo, m: Ising) {
    && (forall i :: 0 <= i < |q.diag| ==> SafeInteger(q.diag[i] as real))
    && (forall i :: 0 <= i < |q.offdiag| ==> SafeInteger(q.offdiag[i].value * 2.0))
    && SafeInteger(q.e0 as real)
    && (forall i :: 0 <= i < |m.h| ==> SafeInteger(m.h[i] * 4.0))
    && (forall i :: 0 <= i < |m.J| ==> SafeInteger(m.J[i].value * 4.0))
    && SafeInteger(m.offset * 4.0)
  }

  // ---------------------------------------------------------------------------
  // The whole compilation
  // ---------------------------------------------------------------------------

  datatype QuboArtifact = QuboArtifact(
    header: Header,
    symbols: seq<Symbol>,
    qubo: Qubo,
    ising: Ising,
    constraints: seq<Constraint>,
    pruned: seq<Pruned>,
    slackUnits: map<string, nat>,
    encodings: map<string, Encoding>,
    deltaEMax: int)
  {
    function N(): nat { |symbols| }
  }

  datatype CompileResult = Compiled(artifact: QuboArtifact) | RequiresRemodeling(refusals: seq<Refusal>)

  function DrawKey(d: Draw): string { d.id }

  function PrecedenceKey(p: Precedence): string { p.before + "|" + p.after }

  function ConcentrationKey(c: Concentration): string { c.left + "|" + c.right }

  function SortedDraws(s: FrozenScenario): seq<Draw> { SortBy(s.draws, DrawKey) }

  function SortedPrecedence(s: FrozenScenario): seq<Precedence> { SortBy(s.precedence, PrecedenceKey) }

  function SortedConcentration(s: FrozenScenario): seq<Concentration> { SortBy(s.concentrationPairs, ConcentrationKey) }

  function EconomicSteps(v: Variables, draws: seq<Draw>, cs: seq<Concentration>, ws: seq<Window>): seq<Step>
    requires Named(v, draws)
  {
    ObjectiveSteps(v, draws, ws) + ConcentrationSteps(v, cs, ws)
  }

  function EmptyForm(n: nat): Form {
    Grow(Form([], map[], 0), n)
  }

  /** Everything that does not depend on the order of the concentration pairs except through their sum. */
  function BeforeBudgets(v: Variables, draws: seq<Draw>, s: FrozenScenario, policy: PenaltyPolicy): BudgetState
    requires Named(v, draws)
  {
    var ws := s.windows;
    var economic := Apply(EmptyForm(|v.symbols|), EconomicSteps(v, draws, SortedConcentration(s), ws));
    var cardinality := Apply(economic, CardinalitySteps(v, draws, ws, policy.cardinality));
    var form := Apply(cardinality, PrecedenceSteps(v, SortedPrecedence(s), ws, policy.precedence));
    var constraints := CardinalityConstraints(v, draws, ws, policy.cardinality)
                     + PrecedenceConstraints(v, SortedPrecedence(s), ws, policy.precedence);
    BudgetState(form, v.symbols, constraints, map[], map[], [])
  }

  function DeltaEMax(v: Variables, draws: seq<Draw>, s: FrozenScenario): int
    requires Named(v, draws)
  {
    StepsWeight(EconomicSteps(v, draws, SortedConcentration(s), s.windows))
  }

  lemma {:induction false} NameXsKeepsZ(v: Variables, d: Draw, ws: seq<Window>)
    ensures NameXs(v, d, ws).zBit == v.zBit
  {
    if ws != [] { NameXsKeepsZ(v, d, Front(ws)); }
  }

  lemma {:induction false} EveryDrawNamed(draws: seq<Draw>, ws: seq<Window>)
    ensures Named(NameVariables(draws, ws), draws)
  {
    if draws != [] {
      EveryDrawNamed(Front(draws), ws);
      NameXsKeepsZ(NameVariables(Front(draws), ws), Last(draws), ws);
      assert forall i :: 0 <= i < |draws| - 1 ==> draws[i] == Front(draws)[i];
    }
  }

  lemma SortedDrawsPositive(s: FrozenScenario)
    requires PositiveAmounts(s.draws)
    ensures PositiveAmounts(SortedDraws(s))
  {
    SortKeepsElements(s.draws, DrawKey);
    var ds := SortedDraws(s);
    forall i | 0 <= i < |ds| ensures ds[i].amountMinor > 0 {
      assert ds[i] in ds;
    }
  }

  function AfterBudgets(s: FrozenScenario, policy: PenaltyPolicy): BudgetState
    requires PositiveAmounts(s.draws) && PositiveCaps(s.windows)
  {
    var draws := SortedDraws(s);
    var v := NameVariables(draws, s.windows);
    EveryDrawNamed(draws, s.windows);
    SortedDrawsPositive(s);
    Budgets(BeforeBudgets(v, draws, s, policy), v, draws, s.windows, policy)
  }

  function DeltaOf(s: FrozenScenario): int {
    EveryDrawNamed(SortedDraws(s), s.windows);
    DeltaEMax(NameVariables(SortedDraws(s), s.windows), SortedDraws(s), s)
  }

  function Finish(s: FrozenScenario, st: BudgetState, pruned: seq<Pruned>, deltaEMax: int): CompileResult {
    if st.refusals != [] then RequiresRemodeling(st.refusals)
    else
      var floor := FloorRefusals(st.constraints, deltaEMax);
      if floor != [] then RequiresRemodeling(floor)
      else
        AssembledPlaces(st.form);
        var qubo := Assemble(st.form);
        var ising := IsingOf(qubo);
        if !InExactRange(qubo, ising) then RequiresRemodeling([NumericRange])
        else Compiled(QuboArtifact(s.header, st.symbols, qubo, ising, StampDelta(st.constraints, deltaEMax),
                                   pruned, st.units, st.encodings, deltaEMax))
  }

  lemma ValidIsPositive(s: FrozenScenario, policy: PenaltyPolicy)
    requires ValidScenario(s, policy)
    ensures PositiveAmounts(s.draws) && PositiveCaps(s.windows)
  {
  }

  function Compile(s: FrozenScenario, policy: PenaltyPolicy): CompileResult {
    var refusals := PolicyRefusals(policy) + ScenarioRefusals(s, policy);
    if refusals != [] then RequiresRemodeling(refusals)
    else
      GatePassesExactlyValid(s, policy);
      ValidIsPositive(s, policy);
      Finish(s, AfterBudgets(s, policy), NameVariables(SortedDraws(s), s.windows).pruned, DeltaOf(s))
  }
}
