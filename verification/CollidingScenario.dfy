/**
 * A scenario whose ids collide and which the compiler accepts all the same: the
 * pairs ("a", "b|c") and ("a|b", "c") join to one key, so the first pair's bit is
 * left without any term and a bitstring of least energy decodes to no schedule.
 */
module CollidingScenario {
  import opened Sums
  import opened Ordering
  import opened QuadraticForm
  import opened Artifact
  import opened Scenario
  import opened CompilerSpec
  import opened Decomposition
  import opened Schedules
  import opened VariableTable
  import opened PenaltyTerms
  import opened EnergyTerms
  import opened SmallForms
  import opened Meaning
  import opened Optimality

  const FIRST := Draw("a", 1, "spv", "sponsor", 0, ["b|c"], 1, 0, [])
  const SECOND := Draw("a|b", 1, "spv", "sponsor", 0, ["c"], 1, 0, [])
  const DRAWS := [FIRST, SECOND]
  const WINDOWS := [Window("b|c", 1), Window("c", 1)]
  const SCENARIO :=
    FrozenScenario(Header("1", "1", "1", ENCODING_VERSION, "1", NoBaseline), DRAWS, WINDOWS, [], [])
  const POLICY := PenaltyPolicy("1", 10, 10, 10, 0)

  /** Both pairs find bit 2; bit 0 is named and never looked up. */
  const TABLE := Variables(
    [XSymbol("a", "b|c"), ZSymbol("a"), XSymbol("a|b", "c"), ZSymbol("a|b")],
    [Pruned("a", "c", WindowNotEligible), Pruned("a|b", "b|c", WindowNotEligible)],
    map["a|b|c" := 2],
    map["a" := 1, "a|b" := 3])

  lemma Accepted()
    ensures ValidPolicy(POLICY) && ValidScenario(SCENARIO, POLICY)
  {
    assert Front(WINDOWS) == [WINDOWS[0]] && Front([WINDOWS[0]]) == [];
    assert WindowIds([WINDOWS[0]]) == {"b|c"};
    assert WindowIds(WINDOWS) == {"b|c", "c"};
    assert Lower("1") == "1";
    assert |"a"| != |"a|b"| && |"b|c"| != |"c"|;
  }

  lemma Sorted()
    ensures SortedDraws(SCENARIO) == DRAWS && SortedPrecedence(SCENARIO) == [] && SortedConcentration(SCENARIO) == []
  {
    assert DRAWS[1..] == [SECOND] && [SECOND][1..] == [];
    assert SortBy([SECOND], DrawKey) == [SECOND];
    assert "a|b"[1..] == "|b" && "a"[1..] == "";
    assert !StringLess("a|b", "a");
  }

  lemma TableIs()
    ensures VariablesOf(SCENARIO) == TABLE
  {
    Sorted();
    var w, u := WINDOWS[0], WINDOWS[1];
    assert Front(WINDOWS) == [w] && Front([w]) == [] && Front(DRAWS) == [FIRST] && Front([FIRST]) == [];
    assert "b|c" != "c" && |"a"| != |"a|b"|;
    assert BitKey("a", "b|c") == "a|b|c" == BitKey("a|b", "c");
    var v0 := NameX(NO_VARIABLES, FIRST, w);
    var v1 := NameX(v0, FIRST, u);
    var v2 := NameZ(v1, FIRST);
    var v3 := NameX(v2, SECOND, w);
    var v4 := NameX(v3, SECOND, u);
    assert NameXs(NO_VARIABLES, FIRST, [w]) == v0;
    assert NameXs(NO_VARIABLES, FIRST, WINDOWS) == v1;
    assert NameVariables([FIRST], WINDOWS) == v2;
    assert NameXs(v2, SECOND, [w]) == v3;
    assert NameXs(v2, SECOND, WINDOWS) == v4;
    assert NameVariables(DRAWS, WINDOWS) == NameZ(v4, SECOND);
  }

  lemma Lookups()
    ensures HasX(TABLE, "a", "b|c") && HasX(TABLE, "a|b", "c")
    ensures !HasX(TABLE, "a", "c") && !HasX(TABLE, "a|b", "b|c")
  {
    assert BitKey("a", "b|c") == "a|b|c" == BitKey("a|b", "c");
    assert |BitKey("a", "c")| == 3 && |BitKey("a|b", "b|c")| == 7 && |"a|b|c"| == 5;
  }

  // ---------------------------------------------------------------------------
  // The terms and the form
  // ---------------------------------------------------------------------------

  const ECONOMIC := [Linear(2, -1), Linear(1, 0), Linear(2, -1), Linear(3, 0)]

  lemma DrawStepsAre(d: Draw, own: Window, z: nat)
    requires (d, own, z) == (FIRST, WINDOWS[0], 1) || (d, own, z) == (SECOND, WINDOWS[1], 3)
    ensures d.id in TABLE.zBit && DrawSteps(TABLE, d, WINDOWS) == [Linear(2, -1), Linear(z, 0)]
    ensures DrawBits(TABLE, d, WINDOWS) == [2, z]
  {
    Lookups();
    assert Front(WINDOWS) == [WINDOWS[0]] && Front([WINDOWS[0]]) == [];
    assert "a" != "a|b" by { assert |"a"| != |"a|b"|; }
    assert XBit(TABLE, d.id, own.id) == 2;
    assert PlacementSteps(TABLE, d, []) == [] && WindowBits(TABLE, d, []) == [];
    assert PlacementSteps(TABLE, d, [WINDOWS[0]]) == if d == FIRST then [Linear(2, -1)] else [];
    assert WindowBits(TABLE, d, [WINDOWS[0]]) == if d == FIRST then [2] else [];
  }

  lemma TermsAre()
    ensures Named(TABLE, DRAWS)
    ensures EconomicSteps(TABLE, DRAWS, [], WINDOWS) == ECONOMIC && StepsWeight(ECONOMIC) == 2
    ensures CardinalitySteps(TABLE, DRAWS, WINDOWS, 10)
         == SquareSteps([Term(2, 1), Term(1, 1)], 1, 10) + SquareSteps([Term(2, 1), Term(3, 1)], 1, 10)
  {
    hide DrawSteps, DrawBits, SquareSteps;
    DrawStepsAre(FIRST, WINDOWS[0], 1);
    DrawStepsAre(SECOND, WINDOWS[1], 3);
    assert Front(DRAWS) == [FIRST] && Front([FIRST]) == [];
    assert ObjectiveSteps(TABLE, [FIRST], WINDOWS) == [Linear(2, -1), Linear(1, 0)];
    assert ObjectiveSteps(TABLE, DRAWS, WINDOWS) == ECONOMIC;
    assert UnitTerms([2, 1]) == [Term(2, 1), Term(1, 1)] && UnitTerms([2, 3]) == [Term(2, 1), Term(3, 1)];
    assert CardinalitySteps(TABLE, [FIRST], WINDOWS, 10) == SquareSteps([Term(2, 1), Term(1, 1)], 1, 10);
    WeightOf();
  }

  lemma WeightOf()
    ensures StepsWeight(ECONOMIC) == 2
  {
    assert Front(ECONOMIC) == [Linear(2, -1), Linear(1, 0), Linear(2, -1)];
    assert Front([Linear(2, -1), Linear(1, 0), Linear(2, -1)]) == [Linear(2, -1), Linear(1, 0)];
    assert Front([Linear(2, -1), Linear(1, 0)]) == [Linear(2, -1)] && Front([Linear(2, -1)]) == [];
  }

  const FORM := Form([0, -10, -22, -10], map[(1, 2) := 20, (2, 3) := 20], 20)

  const AFTER_ECONOMIC := Form([0, 0, -2, 0], map[], 0)

  const AFTER_FIRST := Form([0, -10, -12, 0], map[(1, 2) := 20], 10)

  lemma EconomicForm()
    ensures Apply(EmptyForm(4), ECONOMIC) == AFTER_ECONOMIC
  {
    hide Apply;
    var none := Form([0, 0, 0, 0], map[], 0);
    var a := Form([0, 0, -1, 0], map[], 0);
    assert EmptyForm(4) == none;
    ApplyFour(none, Linear(2, -1), Linear(1, 0), Linear(2, -1), Linear(3, 0));
    assert ApplyStep(none, Linear(2, -1)) == a;
    assert ApplyStep(a, Linear(1, 0)) == a;
    assert ApplyStep(a, Linear(2, -1)) == AFTER_ECONOMIC;
    assert ApplyStep(AFTER_ECONOMIC, Linear(3, 0)) == AFTER_ECONOMIC;
  }

  lemma FirstForm()
    ensures Apply(AFTER_ECONOMIC, SquareSteps([Term(2, 1), Term(1, 1)], 1, 10)) == AFTER_FIRST
  {
    hide SquareSteps, Apply;
    SquareOfTwo(2, 1, 10);
    ApplyFour(AFTER_ECONOMIC, Linear(2, -10), Linear(1, -10), Pair(2, 1, 20), Constant(10));
    var a := Form([0, 0, -12, 0], map[], 0);
    var b := Form([0, -10, -12, 0], map[], 0);
    var c := Form([0, -10, -12, 0], map[(1, 2) := 20], 0);
    assert ApplyStep(AFTER_ECONOMIC, Linear(2, -10)) == a;
    assert ApplyStep(a, Linear(1, -10)) == b;
    assert ApplyStep(b, Pair(2, 1, 20)) == c;
  }

  lemma SecondForm()
    ensures Apply(AFTER_FIRST, SquareSteps([Term(2, 1), Term(3, 1)], 1, 10)) == FORM
  {
    hide SquareSteps, Apply;
    SquareOfTwo(2, 3, 10);
    ApplyFour(AFTER_FIRST, Linear(2, -10), Linear(3, -10), Pair(2, 3, 20), Constant(10));
    var a := Form([0, -10, -22, 0], map[(1, 2) := 20], 10);
    var b := Form([0, -10, -22, -10], map[(1, 2) := 20], 10);
    var c := Form([0, -10, -22, -10], map[(1, 2) := 20, (2, 3) := 20], 10);
    assert ApplyStep(AFTER_FIRST, Linear(2, -10)) == a;
    assert ApplyStep(a, Linear(3, -10)) == b;
    assert ApplyStep(b, Pair(2, 3, 20)) == c;
  }

  lemma FormIs()
    ensures Apply(Apply(EmptyForm(4), ECONOMIC),
                  SquareSteps([Term(2, 1), Term(1, 1)], 1, 10) + SquareSteps([Term(2, 1), Term(3, 1)], 1, 10)) == FORM
  {
    hide SquareSteps, Apply;
    EconomicForm();
    FirstForm();
    SecondForm();
    ApplyConcat(AFTER_ECONOMIC, SquareSteps([Term(2, 1), Term(1, 1)], 1, 10), SquareSteps([Term(2, 1), Term(3, 1)], 1, 10));
  }

  // ---------------------------------------------------------------------------
  // Budgets, floor and range
  // ---------------------------------------------------------------------------

  /** Each window holds the one draw made for it, under both names of bit 2. */
  lemma MembersAre(w: Window)
    requires w in WINDOWS
    ensures Members(TABLE, DRAWS, w.id) == [Member(1, 2)] && EncodingOf(Members(TABLE, DRAWS, w.id), 1) == NoBudget
  {
    Lookups();
    assert Front(DRAWS) == [FIRST] && Front([FIRST]) == [];
    assert Members(TABLE, [FIRST], w.id) == if w.id == "b|c" then [Member(1, 2)] else [];
    assert Front([Member(1, 2)]) == [];
  }

  lemma BeforeIs()
    ensures var st := StateBeforeBudgets(SCENARIO, POLICY);
            st.form == FORM && st.symbols == TABLE.symbols && st.refusals == []
            && forall c :: c in st.constraints ==> c.penalty == 10
  {
    hide SquareSteps, Apply;
    Sorted();
    TableIs();
    TermsAre();
    FormIs();
    EveryDrawNamed(DRAWS, WINDOWS);
    assert PrecedenceSteps(TABLE, [], WINDOWS, 10) == [];
    assert Apply(FORM, []) == FORM by { NoSteps(FORM); }
    PenaltiesAre();
  }

  lemma PenaltiesAre()
    requires Named(TABLE, DRAWS)
    ensures forall c :: c in CardinalityConstraints(TABLE, DRAWS, WINDOWS, 10) + PrecedenceConstraints(TABLE, [], WINDOWS, 10) ==> c.penalty == 10
  {
    assert Front(DRAWS) == [FIRST] && Front([FIRST]) == [];
    assert CardinalityConstraints(TABLE, [FIRST], WINDOWS, 10) == [CardinalityConstraint(TABLE, FIRST, WINDOWS, 10)];
  }

  lemma AfterIs()
    ensures PositiveAmounts(DRAWS) && PositiveCaps(WINDOWS)
    ensures var st := AfterBudgets(SCENARIO, POLICY);
            st.form == FORM && st.symbols == TABLE.symbols && st.refusals == [] && FloorRefusals(st.constraints, 2) == []
  {
    Sorted();
    TableIs();
    BeforeIs();
    hide CardinalityConstraints, PrecedenceConstraints, Apply, EncodingOf;
    var st := StateBeforeBudgets(SCENARIO, POLICY);
    MembersAre(WINDOWS[0]);
    MembersAre(WINDOWS[1]);
    var w, u := WINDOWS[0], WINDOWS[1];
    assert Front(WINDOWS) == [w] && Front([w]) == [];
    assert Last(WINDOWS) == u && Last([w]) == w;
    var none, one := Budgets(st, TABLE, DRAWS, [], POLICY), Budgets(st, TABLE, DRAWS, [w], POLICY);
    assert none == st;
    assert one.form == st.form && one.symbols == st.symbols && one.constraints == st.constraints && one.refusals == [];
    NoFloorRefusal(st.constraints, 2);
  }

  lemma QuboIs()
    ensures Assemble(FORM) == Qubo([0, -10, -22, -10], [SymEntry(1, 2, 10.0), SymEntry(2, 3, 10.0)], 20)
  {
    OffdiagIs(FORM);
    var listed := [SymEntry(1, 2, 10.0), SymEntry(2, 3, 10.0)];
    forall e ensures Lists(FORM, e) <==> e in listed {
    }
    StrictlySortedIsUnique(Offdiag(FORM), listed);
  }

  lemma HalfSumIs()
    ensures HalfSum([0, -10, -22, -10]) == -21.0
  {
    var three: seq<int>, two: seq<int>, one: seq<int> := [0, -10, -22], [0, -10], [0];
    assert Front(three + [-10]) == three && Front(three) == two && Front(two) == one && Front(one) == [];
    assert three + [-10] == [0, -10, -22, -10];
    assert HalfSum(one) == 0.0 && HalfSum(two) == -5.0 && HalfSum(three) == -16.0;
  }

  lemma IsingIs()
    ensures PlacesWithin(Assemble(FORM).offdiag, 4)
    ensures IsingOf(Assemble(FORM)) == Ising([0.0, 0.0, 1.0, 0.0], [SymEntry(1, 2, 5.0), SymEntry(2, 3, 5.0)], 9.0)
  {
    QuboIs();
    var q := Assemble(FORM);
    HalfSumIs();
    assert IsingStart(q.diag, q.e0).h == [0.0, 5.0, 11.0, 5.0];
    assert IsingOfPrefix(q, 1) == Ising([0.0, 0.0, 6.0, 5.0], [SymEntry(1, 2, 5.0)], 4.0);
  }

  lemma InRange()
    ensures PlacesWithin(Assemble(FORM).offdiag, 4) && InExactRange(Assemble(FORM), IsingOf(Assemble(FORM)))
  {
    QuboIs();
    IsingIs();
    hide IsingOf, Assemble;
  }

  lemma Compiles()
    ensures Compile(SCENARIO, POLICY).Compiled? && Compile(SCENARIO, POLICY).artifact.symbols == TABLE.symbols
  {
    Accepted();
    GatePassesExactlyValid(SCENARIO, POLICY);
    AfterIs();
    InRange();
    DeltaIs();
    hide PolicyRefusals, ScenarioRefusals, ValidScenario, AfterBudgets, DeltaOf, InExactRange, IsingOf, Assemble, FloorRefusals;
  }

  lemma DeltaIs()
    ensures DeltaOf(SCENARIO) == 2
  {
    Sorted();
    TableIs();
    TermsAre();
    hide EconomicSteps, NameVariables, StepsWeight;
  }

  lemma Collide()
    ensures !KeysDistinct(DRAWS, WINDOWS)
  {
    assert BitKey("a", "b|c") == "a|b|c" == BitKey("a|b", "c");
    assert Live(DRAWS[0], WINDOWS[0]) && BitKey(DRAWS[0].id, WINDOWS[0].id) == BitKey(DRAWS[1].id, WINDOWS[1].id);
  }

  // ---------------------------------------------------------------------------
  // Energies
  // ---------------------------------------------------------------------------

  lemma SumOfTwo<T>(a: T, b: T, f: T -> int)
    ensures SumOver([a, b], f) == f(a) + f(b)
  {
    assert Front([a, b]) == [a] && Front([a]) == [];
    assert SumOver([a], f) == f(a);
  }

  lemma PlacedBySharedBit(x: Bits, d: Draw, z: nat)
    requires (d, z) == (FIRST, 1) || (d, z) == (SECOND, 3)
    ensures d.id in TABLE.zBit && TABLE.zBit[d.id] == z
    ensures DrawValue(TABLE, x, WINDOWS)(d) == if On(x, 2) then -1 else 0
    ensures SlotCount(TABLE, x, d, WINDOWS) == (if On(x, 2) then 1 else 0) + if On(x, z) then 1 else 0
  {
    Lookups();
    var w, u := WINDOWS[0], WINDOWS[1];
    assert d.id in TABLE.zBit && TABLE.zBit[d.id] == z by { assert |"a"| != |"a|b"|; }
    assert Placed(TABLE, x, d.id, w.id) <==> d == FIRST && On(x, 2);
    assert Placed(TABLE, x, d.id, u.id) <==> d == SECOND && On(x, 2);
    SumOfTwo(w, u, PlacementValue(TABLE, x, d));
    assert Front(WINDOWS) == [w] && Front([w]) == [];
    assert PlacedCount(TABLE, x, d.id, [w]) == if Placed(TABLE, x, d.id, w.id) then 1 else 0;
  }

  lemma NoBudgetMisses(x: Bits)
    ensures PositiveAmounts(DRAWS) && PositiveCaps(WINDOWS) && BudgetMisses(SCENARIO, POLICY, x) == 0
  {
    Sorted();
    TableIs();
    hide EncodingOf, StateBeforeBudgets, NameVariables;
    MembersAre(WINDOWS[0]);
    MembersAre(WINDOWS[1]);
    var w, u, st := WINDOWS[0], WINDOWS[1], StateBeforeBudgets(SCENARIO, POLICY);
    assert Front(WINDOWS) == [w] && Front([w]) == [] && Last(WINDOWS) == u && Last([w]) == w;
    assert CapMissesTotal(st, TABLE, DRAWS, [w], POLICY, x) == 0;
  }

  lemma ValuesAre(x: Bits)
    ensures EconomicValue(SCENARIO, x) == if On(x, 2) then -2 else 0
    ensures OrderMisses(SCENARIO, x) == 0
  {
    TableIs();
    hide NameVariables, DrawValue;
    PlacedBySharedBit(x, FIRST, 1);
    PlacedBySharedBit(x, SECOND, 3);
    SumOfTwo(FIRST, SECOND, DrawValue(TABLE, x, WINDOWS));
  }

  lemma SlotMissesAre(x: Bits)
    ensures var one := if On(x, 2) then 1 else 0;
            var a, b := one + (if On(x, 1) then 1 else 0), one + if On(x, 3) then 1 else 0;
            SlotMisses(SCENARIO, x) == Square(a - 1) + Square(b - 1)
  {
    TableIs();
    hide NameVariables, SlotCount, Square;
    PlacedBySharedBit(x, FIRST, 1);
    PlacedBySharedBit(x, SECOND, 3);
    SumOfTwo(FIRST, SECOND, SlotExcess(TABLE, x, WINDOWS));
  }

  /** The shared bit earns both draws' utility; the orphan bit 0 does not count. */
  lemma EnergyIs(x: Bits)
    ensures Compile(SCENARIO, POLICY).Compiled?
    ensures var one := if On(x, 2) then 1 else 0;
            var a, b := one + (if On(x, 1) then 1 else 0), one + if On(x, 3) then 1 else 0;
            ArtifactEnergy(SCENARIO, POLICY, x) == (-2 * one + 10 * (Square(a - 1) + Square(b - 1))) as real
  {
    Compiles();
    hide Compile, EconomicValue, OrderMisses, SlotMisses, BudgetMisses, Square;
    ArtifactDecomposes(SCENARIO, POLICY, x);
    NoBudgetMisses(x);
    ValuesAre(x);
    SlotMissesAre(x);
  }

  /** Only the shared bit is on: draw "a" has no slot of its own. */
  const STRAY: Bits := [false, false, true, false]

  lemma StrayIsLeast()
    ensures Compile(SCENARIO, POLICY).Compiled? && LeastEnergy(SCENARIO, POLICY, STRAY)
  {
    Compiles();
    hide Compile, ArtifactEnergy;
    EnergyIs(STRAY);
    forall y: Bits ensures ArtifactEnergy(SCENARIO, POLICY, STRAY) <= ArtifactEnergy(SCENARIO, POLICY, y) {
      EnergyIs(y);
    }
  }

  lemma StrayHasNoSlot(slot: Slot, p: nat)
    ensures !SlotIs(TABLE.symbols, STRAY, "a", p, slot)
  {
    assert |"a"| != |"a|b"|;
  }

  lemma StrayDecodesToNothing(sched: Schedule)
    ensures !Decodes(TABLE.symbols, STRAY, DRAWS, sched)
  {
    hide SlotIs;
    var slot := SlotOf(sched, "a");
    forall p: nat ensures !SlotIs(TABLE.symbols, STRAY, "a", p, slot) { StrayHasNoSlot(slot, p); }
    assert !HasSlot(TABLE.symbols, STRAY, DRAWS[0].id, slot);
  }

  /**
   * The compiler accepts the colliding scenario, and a bitstring of least energy
   * of its artifact stands for no schedule at all.
   */
  lemma AcceptedAndMisleading()
    ensures Compile(SCENARIO, POLICY).Compiled? && !KeysDistinct(SCENARIO.draws, SCENARIO.windows)
    ensures LeastEnergy(SCENARIO, POLICY, STRAY)
    ensures forall sched :: !Decodes(Compile(SCENARIO, POLICY).artifact.symbols, STRAY, SCENARIO.draws, sched)
  {
    Collide();
    Compiles();
    StrayIsLeast();
    hide Compile, LeastEnergy, Decodes;
    forall sched ensures !Decodes(TABLE.symbols, STRAY, DRAWS, sched) { StrayDecodesToNothing(sched); }
  }
}
