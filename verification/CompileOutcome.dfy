/**
 * The outcome of a compilation, read off scenario and policy: what an artifact
 * holds, which refusals a valid scenario gets, and exactly when it compiles.
 */
module CompileOutcome {
  import opened Sums
  import opened Ordering
  import opened QuadraticForm
  import opened Artifact
  import opened Slack
  import opened Scenario
  import opened CompilerSpec
  import opened Decomposition
  import opened Meaning
  import opened BudgetChoice
  import opened ArtifactRecords

  /** The sum of the absolute costs of everything that may be chosen. */
  ghost function Swing(s: FrozenScenario, ds: seq<Draw>): int {
    var table := SymbolList(ds, s.windows);
    SumOver(s.draws, DrawSwing(table, s.windows)) + SumOver(s.concentrationPairs, CrowdingSwing(table, s.windows))
  }

  lemma SwingIsDelta(s: FrozenScenario, policy: PenaltyPolicy)
    requires ValidScenario(s, policy)
    ensures DeltaOf(s) == Swing(s, SortedDraws(s))
  {
    SwingIs(s, policy);
    VariablesListed(SortedDraws(s), s.windows);
    hide DeltaOf, SumOver, NameVariables, SortBy, ValidScenario, SymbolList;
  }

  lemma CompiledParts(s: FrozenScenario, policy: PenaltyPolicy)
    requires Compile(s, policy).Compiled?
    ensures ValidPolicy(policy) && ValidScenario(s, policy) && PositiveAmounts(s.draws) && PositiveCaps(s.windows)
    ensures var a, st := Compile(s, policy).artifact, AfterBudgets(s, policy);
            && a.header == s.header && a.symbols == st.symbols && a.pruned == VariablesOf(s).pruned && a.deltaEMax == DeltaOf(s)
            && a.encodings == st.encodings && a.slackUnits == st.units && a.constraints == StampDelta(st.constraints, DeltaOf(s))
  {
    CompiledMeans(s, policy);
    hide PolicyRefusals, ScenarioRefusals, ValidScenario, ValidPolicy, AfterBudgets, DeltaOf, InExactRange, FloorRefusals, IsingOf, Assemble,
         StampDelta, NameVariables, SortBy;
  }

  /**
   * The symbol table lists, draw by draw in ascending order of id, the placements the scenario allows and the deferral, and
   * behind them the slack bits of each window; the pruned list has every other pair with its reason; the constraint list has
   * a record, with its penalty, its bits and the swing, per draw, per precedence pair that forbids anything and per window
   * with a budget.
   */
  lemma ArtifactIs(s: FrozenScenario, policy: PenaltyPolicy, ds: seq<Draw>)
    requires Compile(s, policy).Compiled? && ById(s, ds)
    ensures var a := Compile(s, policy).artifact;
            && a.header == s.header
            && a.symbols == SymbolList(ds, s.windows) + SlackBehind(s.windows, a.slackUnits)
            && a.pruned == PrunedList(ds, s.windows)
            && a.deltaEMax == Swing(s, ds)
            && a.constraints == Records(s, policy, ds, a.symbols, a.encodings, Swing(s, ds))
  {
    CompiledParts(s, policy);
    SortedIsById(s, ds);
    hide Compile;
    var a, st := Compile(s, policy).artifact, AfterBudgets(s, policy);
    AfterBudgetsRecords(s, policy);
    VariablesListed(ds, s.windows);
    SwingIsDelta(s, policy);
    RecordsStamped(s, policy, ds, a.symbols, a.encodings, a.deltaEMax);
    hide AfterBudgets, ValidScenario, ValidPolicy, DeltaOf, Records, SymbolList, PrunedList, SlackBehind, SortBy, NameVariables, Swing, StampDelta, ById;
  }

  // ---------------------------------------------------------------------------
  // The penalty floor
  // ---------------------------------------------------------------------------

  ghost predicate KindBelow(cs: seq<Constraint>, kind: Kind, delta: int) {
    exists c :: c in cs && c.kind == kind && c.penalty <= delta
  }

  lemma {:induction false} FloorAnswersKind(cs: seq<Constraint>, delta: int, kind: Kind)
    ensures PenaltyBelowFloor(kind) in FloorRefusals(cs, delta) <==> KindBelow(cs, kind, delta)
    ensures multiset(FloorRefusals(cs, delta))[PenaltyBelowFloor(kind)] <= 1
  {
    if cs != [] {
      FloorAnswersKind(Front(cs), delta, kind);
      assert cs == Front(cs) + [Last(cs)];
      if KindBelow(Front(cs), kind, delta) {
        var c :| c in Front(cs) && c.kind == kind && c.penalty <= delta;
        assert c in cs;
      }
    }
  }

  /** Some placement of the pair is forbidden: `after` fits a window no later than one that `before` fits. */
  ghost predicate ForbidsSome(table: seq<Symbol>, pr: Precedence, ws: seq<Window>) {
    exists a: nat, b: nat :: ForbidsWindows(table, pr, ws, a, b)
  }

  ghost predicate ForbidsWindows(table: seq<Symbol>, pr: Precedence, ws: seq<Window>, a: nat, b: nat) {
    a <= b < |ws| && Found(table, pr.after + "|" + ws[a].id) && Found(table, pr.before + "|" + ws[b].id)
  }

  lemma OrderBitsEmpty(table: seq<Symbol>, pr: Precedence, ws: seq<Window>)
    ensures OrderBits(table, pr, ws) != {} <==> ForbidsSome(table, pr, ws)
  {
    hide PlacementBit;
    if ForbidsSome(table, pr, ws) {
      var a: nat, b: nat :| ForbidsWindows(table, pr, ws, a, b);
      var p: nat :| PlacementBit(table, pr.after + "|" + ws[a].id, p);
      assert Inverts(table, pr, ws, a, b, p);
      InversionInTable(table, pr, ws, p);
      assert p in OrderBits(table, pr, ws);
    }
    if OrderBits(table, pr, ws) != {} {
      var p :| p in OrderBits(table, pr, ws);
      var a: nat, b: nat :| Inverts(table, pr, ws, a, b, p);
      assert ForbidsWindows(table, pr, ws, a, b);
    }
  }

  lemma {:induction false} CardinalityKinds(symbols: seq<Symbol>, ds: seq<Draw>, ws: seq<Window>, P: int, delta: int)
    ensures forall c :: c in CardinalityRecords(symbols, ds, ws, P, delta) ==> c.kind == Cardinality && c.penalty == P
    ensures CardinalityRecords(symbols, ds, ws, P, delta) == [] <==> ds == []
  {
    hide SlotBits;
    if ds != [] { CardinalityKinds(symbols, Front(ds), ws, P, delta); }
  }

  lemma {:induction false} PrecedenceKinds(symbols: seq<Symbol>, ps: seq<Precedence>, ws: seq<Window>, P: int, delta: int)
    ensures forall c :: c in PrecedenceRecords(symbols, ps, ws, P, delta) ==> c.kind == PrecedenceKind && c.penalty == P
    ensures PrecedenceRecords(symbols, ps, ws, P, delta) == [] <==> forall pr :: pr in ps ==> !ForbidsSome(symbols, pr, ws)
  {
    hide OrderBits, ForbidsSome;
    if ps != [] {
      PrecedenceKinds(symbols, Front(ps), ws, P, delta);
      OrderBitsEmpty(symbols, Last(ps), ws);
      assert ps == Front(ps) + [Last(ps)];
    }
  }

  /** Some window has the encoding. */
  ghost predicate SomeEncoded(ws: seq<Window>, encodings: map<string, Encoding>, e: Encoding) {
    exists j :: 0 <= j < |ws| && ws[j].id in encodings && encodings[ws[j].id] == e
  }

  function BudgetKind(e: Encoding): Kind
    requires e != NoBudget
  {
    if e == PairPruned then BudgetPair else BudgetSlack
  }

  ghost predicate HasKind(cs: seq<Constraint>, kind: Kind) {
    exists c :: c in cs && c.kind == kind
  }

  lemma {:induction false} BudgetKinds(symbols: seq<Symbol>, encodings: map<string, Encoding>, ds: seq<Draw>, ws: seq<Window>, P: int, delta: int, e: Encoding)
    requires e != NoBudget
    ensures forall c :: c in BudgetRecords(symbols, encodings, ds, ws, P, delta) ==> c.kind in {BudgetPair, BudgetSlack} && c.penalty == P
    ensures HasKind(BudgetRecords(symbols, encodings, ds, ws, P, delta), BudgetKind(e)) <==> SomeEncoded(ws, encodings, e)
  {
    hide ClashBits, LoadBits;
    if ws != [] {
      BudgetKinds(symbols, encodings, ds, Front(ws), P, delta, e);
      var rest, own, w := BudgetRecords(symbols, encodings, ds, Front(ws), P, delta), BudgetRecord(symbols, encodings, ds, Last(ws), P, delta), Last(ws);
      if SomeEncoded(Front(ws), encodings, e) {
        var j :| 0 <= j < |ws| - 1 && Front(ws)[j].id in encodings && encodings[Front(ws)[j].id] == e;
        assert ws[j] == Front(ws)[j];
        var c :| c in rest && c.kind == BudgetKind(e);
        assert c in rest + own;
      } else if w.id in encodings && encodings[w.id] == e {
        assert ws[|ws| - 1] == w;
        assert own[0] in rest + own;
      }
    }
  }

  /** A constraint of that kind is in force. */
  ghost predicate Occurs(s: FrozenScenario, ds: seq<Draw>, kind: Kind) {
    match kind
    case Cardinality => s.draws != []
    case PrecedenceKind => exists pr :: pr in s.precedence && ForbidsSome(SymbolList(ds, s.windows), pr, s.windows)
    case BudgetPair => exists j :: 0 <= j < |s.windows| && WantsPairs(s, ds, s.windows[j])
    case BudgetSlack => exists j :: 0 <= j < |s.windows| && WantsSlack(s, ds, s.windows[j])
  }

  ghost predicate WantsPairs(s: FrozenScenario, ds: seq<Draw>, w: Window) {
    Overfull(Demand(s, ds, w), w.liquidityCapMinor) && PairsSuffice(Demand(s, ds, w), w.liquidityCapMinor)
  }

  ghost predicate WantsSlack(s: FrozenScenario, ds: seq<Draw>, w: Window) {
    Overfull(Demand(s, ds, w), w.liquidityCapMinor) && !PairsSuffice(Demand(s, ds, w), w.liquidityCapMinor)
  }

  function PenaltyOf(policy: PenaltyPolicy, kind: Kind): int {
    match kind
    case Cardinality => policy.cardinality
    case PrecedenceKind => policy.precedence
    case BudgetPair => policy.budget
    case BudgetSlack => policy.budget
  }

  lemma ForbidsWithSlack(table: seq<Symbol>, slack: seq<Symbol>, pr: Precedence, ws: seq<Window>)
    requires AllSlack(slack)
    ensures ForbidsSome(table + slack, pr, ws) <==> ForbidsSome(table, pr, ws)
  {
    hide AllSlack, Found;
    forall a: nat, b: nat ensures ForbidsWindows(table + slack, pr, ws, a, b) <==> ForbidsWindows(table, pr, ws, a, b) {
      if a <= b < |ws| {
        FoundWithSlack(table, slack, pr.after + "|" + ws[a].id);
        FoundWithSlack(table, slack, pr.before + "|" + ws[b].id);
      }
    }
  }

  // kinds and penalties of the three parts of the constraint list
  lemma RecordKinds(s: FrozenScenario, policy: PenaltyPolicy, ds: seq<Draw>, table: seq<Symbol>, slack: seq<Symbol>, encodings: map<string, Encoding>)
    requires AllSlack(slack)
    ensures var cs := Records(s, policy, ds, table + slack, encodings, 0);
            && (forall c :: c in cs ==> c.penalty == PenaltyOf(policy, c.kind))
            && (HasKind(cs, Cardinality) <==> ds != [])
            && (HasKind(cs, PrecedenceKind) <==> exists pr :: pr in s.precedence && ForbidsSome(table, pr, s.windows))
            && (HasKind(cs, BudgetPair) <==> SomeEncoded(s.windows, encodings, PairPruned))
            && (HasKind(cs, BudgetSlack) <==> SomeEncoded(s.windows, encodings, SlackEncoded))
  {
    hide CardinalityRecords, PrecedenceRecords, BudgetRecords, SortBy, ForbidsSome, SomeEncoded, AllSlack, HasKind;
    var symbols, ps, ws := table + slack, SortedPrecedence(s), s.windows;
    CardinalityKinds(symbols, ds, ws, policy.cardinality, 0);
    PrecedenceKinds(symbols, ps, ws, policy.precedence, 0);
    BudgetKinds(symbols, encodings, ds, ws, policy.budget, 0, PairPruned);
    BudgetKinds(symbols, encodings, ds, ws, policy.budget, 0, SlackEncoded);
    SortKeepsElements(s.precedence, PrecedenceKey);
    forall pr ensures ForbidsSome(symbols, pr, ws) <==> ForbidsSome(table, pr, ws) { ForbidsWithSlack(table, slack, pr, ws); }
    PartKinds(CardinalityRecords(symbols, ds, ws, policy.cardinality, 0), PrecedenceRecords(symbols, ps, ws, policy.precedence, 0),
              BudgetRecords(symbols, encodings, ds, ws, policy.budget, 0));
  }

  lemma PartKinds(a: seq<Constraint>, b: seq<Constraint>, c: seq<Constraint>)
    requires (forall r :: r in a ==> r.kind == Cardinality) && (forall r :: r in b ==> r.kind == PrecedenceKind)
    requires forall r :: r in c ==> r.kind in {BudgetPair, BudgetSlack}
    ensures HasKind(a + b + c, Cardinality) <==> a != []
    ensures HasKind(a + b + c, PrecedenceKind) <==> b != []
    ensures HasKind(a + b + c, BudgetPair) <==> HasKind(c, BudgetPair)
    ensures HasKind(a + b + c, BudgetSlack) <==> HasKind(c, BudgetSlack)
  {
    var all := a + b + c;
    assert forall r :: r in all <==> r in a || r in b || r in c;
    if a != [] { assert a[0] in all; }
    if b != [] { assert b[0] in all; }
  }

  lemma WindowEncoded(s: FrozenScenario, policy: PenaltyPolicy, j: nat)
    requires ValidPolicy(policy) && ValidScenario(s, policy) && j < |s.windows|
    ensures PositiveAmounts(s.draws) && PositiveCaps(s.windows)
    ensures var st, w := AfterBudgets(s, policy), s.windows[j];
            st.refusals == [] ==>
              && (w.id in st.encodings && st.encodings[w.id] == PairPruned <==> WantsPairs(s, SortedDraws(s), w))
              && (w.id in st.encodings && st.encodings[w.id] == SlackEncoded <==> WantsSlack(s, SortedDraws(s), w))
  {
    AfterBudgetsChosen(s, policy, j);
    hide AfterBudgets, SortBy, Demand, Overfull, PairsSuffice, TooWide, ValidPolicy, ValidScenario, GreatestUnit, SlackCovers, SlackNumbered;
  }

  lemma SomeWindow(s: FrozenScenario, policy: PenaltyPolicy)
    requires ValidPolicy(policy) && ValidScenario(s, policy)
    ensures PositiveAmounts(s.draws) && PositiveCaps(s.windows)
    ensures AfterBudgets(s, policy).refusals == [] ==>
              && (SomeEncoded(s.windows, AfterBudgets(s, policy).encodings, PairPruned) <==> Occurs(s, SortedDraws(s), BudgetPair))
              && (SomeEncoded(s.windows, AfterBudgets(s, policy).encodings, SlackEncoded) <==> Occurs(s, SortedDraws(s), BudgetSlack))
  {
    ValidIsPositive(s, policy);
    hide *;
    var st, ds, ws := AfterBudgets(s, policy), SortedDraws(s), s.windows;
    if st.refusals == [] {
      forall j | 0 <= j < |ws|
        ensures ws[j].id in st.encodings && st.encodings[ws[j].id] == PairPruned <==> WantsPairs(s, ds, ws[j])
        ensures ws[j].id in st.encodings && st.encodings[ws[j].id] == SlackEncoded <==> WantsSlack(s, ds, ws[j])
      {
        WindowEncoded(s, policy, j);
      }
      WindowsWant(s, ds, st.encodings);
    }
  }

  lemma WindowsWant(s: FrozenScenario, ds: seq<Draw>, encodings: map<string, Encoding>)
    requires forall j :: 0 <= j < |s.windows| ==>
               (s.windows[j].id in encodings && encodings[s.windows[j].id] == PairPruned <==> WantsPairs(s, ds, s.windows[j]))
    requires forall j :: 0 <= j < |s.windows| ==>
               (s.windows[j].id in encodings && encodings[s.windows[j].id] == SlackEncoded <==> WantsSlack(s, ds, s.windows[j]))
    ensures SomeEncoded(s.windows, encodings, PairPruned) <==> Occurs(s, ds, BudgetPair)
    ensures SomeEncoded(s.windows, encodings, SlackEncoded) <==> Occurs(s, ds, BudgetSlack)
  {
    hide WantsPairs, WantsSlack;
  }

  lemma KindsInForce(s: FrozenScenario, policy: PenaltyPolicy, kind: Kind)
    requires ValidPolicy(policy) && ValidScenario(s, policy)
    ensures PositiveAmounts(s.draws) && PositiveCaps(s.windows)
    ensures forall c :: c in AfterBudgets(s, policy).constraints ==> c.penalty == PenaltyOf(policy, c.kind)
    ensures AfterBudgets(s, policy).refusals == [] ==> (HasKind(AfterBudgets(s, policy).constraints, kind) <==> Occurs(s, SortedDraws(s), kind))
  {
    AfterBudgetsRecords(s, policy);
    SomeWindow(s, policy);
    SortBySorts(s.draws, DrawKey);
    hide AfterBudgets, SortBy, ValidPolicy, ValidScenario, Records, HasKind, SomeEncoded, ForbidsSome, WantsPairs, WantsSlack;
    var st, ds := AfterBudgets(s, policy), SortedDraws(s);
    SlackBehindIs(s.windows, st.units);
    RecordKinds(s, policy, ds, SymbolList(ds, s.windows), SlackBehind(s.windows, st.units), st.encodings);
  }

  lemma KindBelowFloor(cs: seq<Constraint>, policy: PenaltyPolicy, kind: Kind, delta: int)
    requires forall c :: c in cs ==> c.penalty == PenaltyOf(policy, c.kind)
    ensures KindBelow(cs, kind, delta) <==> HasKind(cs, kind) && PenaltyOf(policy, kind) <= delta
  {
    if HasKind(cs, kind) && PenaltyOf(policy, kind) <= delta {
      var c :| c in cs && c.kind == kind;
      assert c.penalty <= delta;
    }
  }

  lemma FinishRefusesKind(s: FrozenScenario, st: BudgetState, pruned: seq<Pruned>, delta: int, kind: Kind)
    requires st.refusals == []
    ensures Refuses(Finish(s, st, pruned, delta), PenaltyBelowFloor(kind)) <==> PenaltyBelowFloor(kind) in FloorRefusals(st.constraints, delta)
  {
    hide FloorRefusals, InExactRange, IsingOf, Assemble, StampDelta;
  }

  /**
   * A valid scenario within its slack allowance is refused for a constraint kind exactly if a constraint of that kind is in
   * force and its penalty is not above the swing.
   */
  lemma FloorRefusalsAnswer(s: FrozenScenario, policy: PenaltyPolicy, ds: seq<Draw>, kind: Kind)
    requires ValidPolicy(policy) && ValidScenario(s, policy) && ById(s, ds)
    requires Refused(s, ds, s.windows, policy.maxSlackBits) == []
    ensures Refuses(Compile(s, policy), PenaltyBelowFloor(kind)) <==> Occurs(s, ds, kind) && PenaltyOf(policy, kind) <= Swing(s, ds)
  {
    SortedIsById(s, ds);
    CompileValidIs(s, policy);
    AfterBudgetsRefused(s, policy);
    KindsInForce(s, policy, kind);
    SwingIsDelta(s, policy);
    hide *;
    var st, delta := AfterBudgets(s, policy), DeltaOf(s);
    KindBelowFloor(st.constraints, policy, kind, delta);
    FloorAnswersKind(st.constraints, delta, kind);
    FinishRefusesKind(s, st, VariablesOf(s).pruned, delta, kind);
  }

  // ---------------------------------------------------------------------------
  // When a scenario compiles
  // ---------------------------------------------------------------------------

  /** An integer a double holds exactly. */
  predicate Exact(v: real) {
    v == v.Floor as real && -9007199254740991.0 <= v <= 9007199254740991.0
  }

  /** Diagonal, twice the off-diagonal, the constant, and four times every Ising value. */
  predicate AllExact(q: Qubo, m: Ising) {
    && (forall i :: 0 <= i < |q.diag| ==> Exact(q.diag[i] as real))
    && (forall i :: 0 <= i < |q.offdiag| ==> Exact(2.0 * q.offdiag[i].value))
    && Exact(q.e0 as real)
    && (forall i :: 0 <= i < |m.h| ==> Exact(4.0 * m.h[i]))
    && (forall i :: 0 <= i < |m.J| ==> Exact(4.0 * m.J[i].value))
    && Exact(4.0 * m.offset)
  }

  lemma RangeIsExact(q: Qubo, m: Ising)
    ensures InExactRange(q, m) <==> AllExact(q, m)
  {
    assert forall v: real :: SafeInteger(v) <==> Exact(v);
  }

  lemma FinishCompiles(s: FrozenScenario, st: BudgetState, pruned: seq<Pruned>, delta: int)
    ensures PlacesWithin(Assemble(st.form).offdiag, |Assemble(st.form).diag|)
    ensures var r, q := Finish(s, st, pruned, delta), Assemble(st.form);
            if st.refusals != [] || FloorRefusals(st.constraints, delta) != [] then r.RequiresRemodeling?
            else if !InExactRange(q, IsingOf(q)) then r == RequiresRemodeling([NumericRange])
            else r.Compiled? && r.artifact.qubo == q && r.artifact.ising == IsingOf(q)
  {
    AssembledPlaces(st.form);
  }

  lemma FloorNamesOnlyKinds(cs: seq<Constraint>, delta: int)
    ensures FloorRefusals(cs, delta) == [] <==> forall kind :: PenaltyBelowFloor(kind) !in FloorRefusals(cs, delta)
  {
    FloorNamesKinds(cs, delta);
    var floor := FloorRefusals(cs, delta);
    if floor != [] {
      assert floor[0] in floor && floor[0].PenaltyBelowFloor?;
      assert floor[0] == PenaltyBelowFloor(floor[0].kind);
    }
  }

  /** The penalty of every kind of constraint in force is above the swing. */
  ghost predicate PenaltiesSuffice(s: FrozenScenario, policy: PenaltyPolicy, ds: seq<Draw>) {
    forall kind :: Occurs(s, ds, kind) ==> PenaltyOf(policy, kind) > Swing(s, ds)
  }

  lemma AllKindsInForce(s: FrozenScenario, policy: PenaltyPolicy)
    requires ValidPolicy(policy) && ValidScenario(s, policy)
    ensures PositiveAmounts(s.draws) && PositiveCaps(s.windows)
    ensures forall c :: c in AfterBudgets(s, policy).constraints ==> c.penalty == PenaltyOf(policy, c.kind)
    ensures AfterBudgets(s, policy).refusals == [] ==>
              forall kind :: HasKind(AfterBudgets(s, policy).constraints, kind) <==> Occurs(s, SortedDraws(s), kind)
  {
    hide *;
    KindsInForce(s, policy, Cardinality);
    forall kind
      ensures AfterBudgets(s, policy).refusals == [] ==> (HasKind(AfterBudgets(s, policy).constraints, kind) <==> Occurs(s, SortedDraws(s), kind))
    {
      KindsInForce(s, policy, kind);
    }
  }

  /**
   * A valid scenario compiles if and only if no window needs more slack than allowed, every penalty in force is above the
   * swing, and every number of the matrix and its Ising form is exact in a double.
   */
  lemma CompilesExactly(s: FrozenScenario, policy: PenaltyPolicy, ds: seq<Draw>)
    requires ValidPolicy(policy) && ValidScenario(s, policy) && ById(s, ds)
    ensures PositiveAmounts(s.draws) && PositiveCaps(s.windows)
    ensures var q, r := Assemble(AfterBudgets(s, policy).form), Compile(s, policy);
            PlacesWithin(q.offdiag, |q.diag|) &&
            if Refused(s, ds, s.windows, policy.maxSlackBits) != [] || !PenaltiesSuffice(s, policy, ds) then r.RequiresRemodeling?
            else if !AllExact(q, IsingOf(q)) then r == RequiresRemodeling([NumericRange])
            else r.Compiled? && r.artifact.qubo == q && r.artifact.ising == IsingOf(q)
  {
    SortedIsById(s, ds);
    hide *;
    CompileValidIs(s, policy);
    AfterBudgetsRefused(s, policy);
    SwingIsDelta(s, policy);
    AllKindsInForce(s, policy);
    var st, delta := AfterBudgets(s, policy), DeltaOf(s);
    FinishCompiles(s, st, VariablesOf(s).pruned, delta);
    RangeIsExact(Assemble(st.form), IsingOf(Assemble(st.form)));
    if st.refusals == [] { FloorPasses(s, policy, ds, st.constraints, delta); }
  }

  lemma FloorPasses(s: FrozenScenario, policy: PenaltyPolicy, ds: seq<Draw>, cs: seq<Constraint>, delta: int)
    requires forall c :: c in cs ==> c.penalty == PenaltyOf(policy, c.kind)
    requires forall kind :: HasKind(cs, kind) <==> Occurs(s, ds, kind)
    requires delta == Swing(s, ds)
    ensures FloorRefusals(cs, delta) == [] <==> PenaltiesSuffice(s, policy, ds)
  {
    hide FloorRefusals, Occurs, HasKind, Swing, PenaltyOf;
    FloorNamesOnlyKinds(cs, delta);
    forall kind ensures PenaltyBelowFloor(kind) in FloorRefusals(cs, delta) <==> Occurs(s, ds, kind) && PenaltyOf(policy, kind) <= delta {
      FloorAnswersKind(cs, delta, kind);
      KindBelowFloor(cs, policy, kind, delta);
    }
  }

  /** Anything else is refused at the gate with the checks that failed, and nothing further is looked at. */
  lemma GateComesFirst(s: FrozenScenario, policy: PenaltyPolicy)
    requires !ValidPolicy(policy) || !ValidScenario(s, policy)
    ensures Compile(s, policy) == RequiresRemodeling(PolicyRefusals(policy) + ScenarioRefusals(s, policy))
    ensures Compile(s, policy).refusals != []
  {
    GatePassesExactlyValid(s, policy);
    hide PolicyRefusals, ScenarioRefusals, ValidPolicy, ValidScenario;
  }
}