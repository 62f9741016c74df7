/**
 * A scenario the compiler accepts and whose two precedence pairs share a sort key:
 * ("x", "x|x") and ("x|x", "x") both join to "x|x|x". Listed the other way round,
 * it compiles to an artifact with its constraints the other way round.
 */
module AmbiguousOrder {
  import opened Sums
  import opened Ordering
  import opened QuadraticForm
  import opened Artifact
  import opened Scenario
  import opened CompilerSpec
  import opened Decomposition
  import opened SmallForms
  import opened OrderIndependence

  const FIRST := Draw("x", 1, "spv", "sponsor", 0, ["w"], 0, 0, [])
  const SECOND := Draw("x|x", 1, "spv", "sponsor", 0, ["w"], 0, 0, [])
  const DRAWS := [FIRST, SECOND]
  const ONLY := Window("w", 2)
  const WINDOWS := [ONLY]
  const THERE := Precedence("x", "x|x")
  const BACK := Precedence("x|x", "x")
  const SCENARIO :=
    FrozenScenario(Header("1", "1", "1", ENCODING_VERSION, "1", NoBaseline), DRAWS, WINDOWS, [THERE, BACK], [])
  const POLICY := PenaltyPolicy("1", 1, 1, 1, 0)

  const TABLE := Variables(
    [XSymbol("x", "w"), ZSymbol("x"), XSymbol("x|x", "w"), ZSymbol("x|x")], [],
    map["x|w" := 0, "x|x|w" := 2],
    map["x" := 1, "x|x" := 3])

  lemma Accepted()
    ensures ValidPolicy(POLICY) && ValidScenario(SCENARIO, POLICY)
  {
    assert Front(WINDOWS) == [] && WindowIds(WINDOWS) == {"w"};
    assert |"x"| != |"x|x"|;
    assert Front(DRAWS) == [FIRST] && Front([FIRST]) == [];
    assert DrawIds([FIRST]) == {"x"};
    assert DrawIds(DRAWS) == {"x", "x|x"};
    assert Lower("1") == "1";
  }

  lemma OneKey()
    ensures PrecedenceKey(THERE) == PrecedenceKey(BACK) == "x|x|x" && THERE != BACK
  {
    assert |"x"| != |"x|x"|;
  }

  lemma Sorted()
    ensures SortedDraws(SCENARIO) == DRAWS && SortedPrecedence(SCENARIO) == [THERE, BACK] && SortedConcentration(SCENARIO) == []
  {
    assert DRAWS[1..] == [SECOND] && [SECOND][1..] == [];
    assert SortBy([SECOND], DrawKey) == [SECOND];
    assert "x|x"[1..] == "|x" && "x"[1..] == "";
    assert !StringLess("x|x", "x");
    OneKey();
    StringLessIrreflexive("x|x|x");
    hide PrecedenceKey, StringLess;
    assert SortedBy([THERE, BACK], PrecedenceKey);
    SortSorted([THERE, BACK], PrecedenceKey);
  }

  lemma Keys()
    ensures BitKey("x", "w") == "x|w" && BitKey("x|x", "w") == "x|x|w" && "x|w" != "x|x|w" && "x" != "x|x"
    ensures HasX(TABLE, "x", "w") && XBit(TABLE, "x", "w") == 0
    ensures HasX(TABLE, "x|x", "w") && XBit(TABLE, "x|x", "w") == 2
    ensures TABLE.zBit["x"] == 1 && TABLE.zBit["x|x"] == 3
  {
    assert |"x"| != |"x|x"| && |"x|w"| != |"x|x|w"|;
    assert BitKey("x|x", "w") == "x|x|w";
  }

  lemma TableIs()
    ensures VariablesOf(SCENARIO) == TABLE
  {
    Sorted();
    Keys();
    assert Front(WINDOWS) == [] && Front(DRAWS) == [FIRST] && Front([FIRST]) == [];
    var v0 := NameX(NO_VARIABLES, FIRST, ONLY);
    var v1 := NameZ(v0, FIRST);
    var v2 := NameX(v1, SECOND, ONLY);
    assert NameXs(NO_VARIABLES, FIRST, WINDOWS) == v0;
    assert NameVariables([FIRST], WINDOWS) == v1;
    assert NameXs(v1, SECOND, WINDOWS) == v2;
    assert NameVariables(DRAWS, WINDOWS) == NameZ(v2, SECOND);
  }

  // ---------------------------------------------------------------------------
  // The terms and the form
  // ---------------------------------------------------------------------------

  const ECONOMIC := [Linear(0, 0), Linear(1, 0), Linear(2, 0), Linear(3, 0)]

  /** A draw that costs nothing anywhere, with bits `y` and `z`. */
  lemma DrawStepsAre(d: Draw, y: nat, z: nat)
    requires HasX(TABLE, d.id, "w") && XBit(TABLE, d.id, "w") == y && d.id in TABLE.zBit && TABLE.zBit[d.id] == z
    requires PlacementCost(d, "w") == 0 && d.deferralCost == 0
    ensures DrawSteps(TABLE, d, WINDOWS) == [Linear(y, 0), Linear(z, 0)]
    ensures DrawBits(TABLE, d, WINDOWS) == [y, z]
  {
    hide HasX, XBit, PlacementCost;
    assert Front(WINDOWS) == [];
    assert PlacementSteps(TABLE, d, []) == [] && WindowBits(TABLE, d, []) == [];
    assert PlacementSteps(TABLE, d, WINDOWS) == [Linear(y, 0)];
    assert WindowBits(TABLE, d, WINDOWS) == [y];
  }

  lemma NoCosts()
    ensures PlacementCost(FIRST, "w") == 0 && PlacementCost(SECOND, "w") == 0
  {
    assert Delay([], "w") == 0;
  }

  lemma BothDrawSteps()
    ensures Named(TABLE, DRAWS)
    ensures DrawSteps(TABLE, FIRST, WINDOWS) == [Linear(0, 0), Linear(1, 0)] && DrawBits(TABLE, FIRST, WINDOWS) == [0, 1]
    ensures DrawSteps(TABLE, SECOND, WINDOWS) == [Linear(2, 0), Linear(3, 0)] && DrawBits(TABLE, SECOND, WINDOWS) == [2, 3]
  {
    Keys();
    NoCosts();
    hide DrawSteps, DrawBits, HasX, XBit, PlacementCost, BitKey;
    DrawStepsAre(FIRST, 0, 1);
    DrawStepsAre(SECOND, 2, 3);
  }

  lemma WeightOf()
    ensures StepsWeight(ECONOMIC) == 0
  {
    assert Front(ECONOMIC) == [Linear(0, 0), Linear(1, 0), Linear(2, 0)];
    assert Front([Linear(0, 0), Linear(1, 0), Linear(2, 0)]) == [Linear(0, 0), Linear(1, 0)];
    assert Front([Linear(0, 0), Linear(1, 0)]) == [Linear(0, 0)] && Front([Linear(0, 0)]) == [];
  }

  lemma TermsAre()
    ensures Named(TABLE, DRAWS)
    ensures EconomicSteps(TABLE, DRAWS, [], WINDOWS) == ECONOMIC && StepsWeight(ECONOMIC) == 0
    ensures CardinalitySteps(TABLE, DRAWS, WINDOWS, 1)
         == SquareSteps([Term(0, 1), Term(1, 1)], 1, 1) + SquareSteps([Term(2, 1), Term(3, 1)], 1, 1)
  {
    hide DrawSteps, DrawBits, SquareSteps;
    BothDrawSteps();
    assert Front(DRAWS) == [FIRST] && Front([FIRST]) == [];
    assert ObjectiveSteps(TABLE, [FIRST], WINDOWS) == [Linear(0, 0), Linear(1, 0)];
    assert ObjectiveSteps(TABLE, DRAWS, WINDOWS) == ECONOMIC;
    assert UnitTerms([0, 1]) == [Term(0, 1), Term(1, 1)] && UnitTerms([2, 3]) == [Term(2, 1), Term(3, 1)];
    assert CardinalitySteps(TABLE, [FIRST], WINDOWS, 1) == SquareSteps([Term(0, 1), Term(1, 1)], 1, 1);
    WeightOf();
  }

  lemma ForbiddenAre()
    ensures ForbiddenSteps(TABLE, THERE, WINDOWS, 1, 1) == [Pair(2, 0, 1)]
    ensures ForbiddenSteps(TABLE, BACK, WINDOWS, 1, 1) == [Pair(0, 2, 1)]
    ensures PrecedenceSteps(TABLE, [THERE, BACK], WINDOWS, 1) == [Pair(2, 0, 1), Pair(0, 2, 1)]
  {
    Keys();
    hide BitKey;
    assert ForbiddenWith(TABLE, THERE, WINDOWS, 0, 0, 1) == [] && ForbiddenWith(TABLE, BACK, WINDOWS, 0, 0, 1) == [];
    assert ForbiddenWith(TABLE, THERE, WINDOWS, 0, 1, 1) == [Pair(2, 0, 1)];
    assert ForbiddenWith(TABLE, BACK, WINDOWS, 0, 1, 1) == [Pair(0, 2, 1)];
    assert ForbiddenSteps(TABLE, THERE, WINDOWS, 0, 1) == [] && ForbiddenSteps(TABLE, BACK, WINDOWS, 0, 1) == [];
    assert Front([THERE, BACK]) == [THERE] && Front([THERE]) == [];
    assert PrecedenceSteps(TABLE, [THERE], WINDOWS, 1) == [Pair(2, 0, 1)];
  }

  const NAMED := Form([0, 0, 0, 0], map[], 0)
  const AFTER_FIRST := Form([-1, -1, 0, 0], map[(0, 1) := 2], 1)
  const AFTER_SECOND := Form([-1, -1, -1, -1], map[(0, 1) := 2, (2, 3) := 2], 2)
  const FORM := Form([-1, -1, -1, -1], map[(0, 1) := 2, (2, 3) := 2, (0, 2) := 2], 2)

  lemma EconomicForm()
    ensures Apply(EmptyForm(4), ECONOMIC) == NAMED
  {
    assert EmptyForm(4) == NAMED;
    ApplyFour(NAMED, Linear(0, 0), Linear(1, 0), Linear(2, 0), Linear(3, 0));
    hide Apply;
    assert ApplyStep(NAMED, Linear(0, 0)) == NAMED && ApplyStep(NAMED, Linear(1, 0)) == NAMED;
    assert ApplyStep(NAMED, Linear(2, 0)) == NAMED && ApplyStep(NAMED, Linear(3, 0)) == NAMED;
  }

  lemma FirstForm()
    ensures Apply(NAMED, SquareSteps([Term(0, 1), Term(1, 1)], 1, 1)) == AFTER_FIRST
  {
    hide SquareSteps, Apply;
    SquareOfTwo(0, 1, 1);
    ApplyFour(NAMED, Linear(0, -1), Linear(1, -1), Pair(0, 1, 2), Constant(1));
    var a := Form([-1, 0, 0, 0], map[], 0);
    var b := Form([-1, -1, 0, 0], map[], 0);
    var c := Form([-1, -1, 0, 0], map[(0, 1) := 2], 0);
    assert ApplyStep(NAMED, Linear(0, -1)) == a;
    assert ApplyStep(a, Linear(1, -1)) == b;
    assert ApplyStep(b, Pair(0, 1, 2)) == c;
  }

  lemma SecondForm()
    ensures Apply(AFTER_FIRST, SquareSteps([Term(2, 1), Term(3, 1)], 1, 1)) == AFTER_SECOND
  {
    hide SquareSteps, Apply;
    SquareOfTwo(2, 3, 1);
    ApplyFour(AFTER_FIRST, Linear(2, -1), Linear(3, -1), Pair(2, 3, 2), Constant(1));
    var a := Form([-1, -1, -1, 0], map[(0, 1) := 2], 1);
    var b := Form([-1, -1, -1, -1], map[(0, 1) := 2], 1);
    var c := Form([-1, -1, -1, -1], map[(0, 1) := 2, (2, 3) := 2], 1);
    assert ApplyStep(AFTER_FIRST, Linear(2, -1)) == a;
    assert ApplyStep(a, Linear(3, -1)) == b;
    assert ApplyStep(b, Pair(2, 3, 2)) == c;
  }

  lemma LastForm()
    ensures Apply(AFTER_SECOND, [Pair(2, 0, 1), Pair(0, 2, 1)]) == FORM
  {
    var one := Form([-1, -1, -1, -1], map[(0, 1) := 2, (2, 3) := 2, (0, 2) := 1], 2);
    assert Front([Pair(2, 0, 1), Pair(0, 2, 1)]) == [Pair(2, 0, 1)];
    ApplySingle(AFTER_SECOND, Pair(2, 0, 1));
    assert ApplyStep(AFTER_SECOND, Pair(2, 0, 1)) == one;
    assert ApplyStep(one, Pair(0, 2, 1)) == FORM;
  }

  lemma FormIs()
    ensures Apply(Apply(Apply(EmptyForm(4), ECONOMIC),
                        SquareSteps([Term(0, 1), Term(1, 1)], 1, 1) + SquareSteps([Term(2, 1), Term(3, 1)], 1, 1)),
                  [Pair(2, 0, 1), Pair(0, 2, 1)]) == FORM
  {
    hide SquareSteps, Apply;
    EconomicForm();
    FirstForm();
    SecondForm();
    LastForm();
    ApplyConcat(NAMED, SquareSteps([Term(0, 1), Term(1, 1)], 1, 1), SquareSteps([Term(2, 1), Term(3, 1)], 1, 1));
  }

  // ---------------------------------------------------------------------------
  // Budgets, floor and range
  // ---------------------------------------------------------------------------

  /** Both draws fit the window together. */
  lemma MembersAre()
    ensures Members(TABLE, DRAWS, "w") == [Member(1, 0), Member(1, 2)]
    ensures EncodingOf(Members(TABLE, DRAWS, "w"), 2) == NoBudget
  {
    Keys();
    hide BitKey;
    assert Front(DRAWS) == [FIRST] && Front([FIRST]) == [];
    assert Members(TABLE, [FIRST], "w") == [Member(1, 0)];
    assert Front([Member(1, 0), Member(1, 2)]) == [Member(1, 0)] && Front([Member(1, 0)]) == [];
    assert MembersTotal([Member(1, 0)]) == 1;
  }

  lemma PenaltiesAre()
    requires Named(TABLE, DRAWS)
    ensures forall c :: c in CardinalityConstraints(TABLE, DRAWS, WINDOWS, 1) ==> c.penalty == 1
    ensures forall c :: c in PrecedenceConstraints(TABLE, [THERE, BACK], WINDOWS, 1) ==> c.penalty == 1
  {
    assert Front(DRAWS) == [FIRST] && Front([FIRST]) == [];
    assert CardinalityConstraints(TABLE, [FIRST], WINDOWS, 1) == [CardinalityConstraint(TABLE, FIRST, WINDOWS, 1)];
    ConstraintsAlike(TABLE, [THERE, BACK], WINDOWS, 1);
  }

  lemma BeforeIs()
    ensures var st := StateBeforeBudgets(SCENARIO, POLICY);
            st.form == FORM && st.symbols == TABLE.symbols && st.refusals == []
            && forall c :: c in st.constraints ==> c.penalty == 1
  {
    hide SquareSteps, Apply, PrecedenceSteps, CardinalityConstraints, PrecedenceConstraints;
    Sorted();
    TableIs();
    TermsAre();
    ForbiddenAre();
    FormIs();
    EveryDrawNamed(DRAWS, WINDOWS);
    PenaltiesAre();
  }

  lemma AfterIs()
    ensures PositiveAmounts(DRAWS) && PositiveCaps(WINDOWS)
    ensures var st := AfterBudgets(SCENARIO, POLICY);
            st.form == FORM && st.symbols == TABLE.symbols && st.refusals == [] && FloorRefusals(st.constraints, 0) == []
  {
    Sorted();
    TableIs();
    BeforeIs();
    MembersAre();
    hide CardinalityConstraints, PrecedenceConstraints, Apply, EncodingOf, NameVariables, SortBy, Members;
    var st := StateBeforeBudgets(SCENARIO, POLICY);
    assert Front(WINDOWS) == [] && Last(WINDOWS) == ONLY;
    assert Budgets(st, TABLE, DRAWS, [], POLICY) == st;
    NoFloorRefusal(st.constraints, 0);
  }

  lemma QuboIs()
    ensures Assemble(FORM) == Qubo([-1, -1, -1, -1], [SymEntry(0, 1, 1.0), SymEntry(0, 2, 1.0), SymEntry(2, 3, 1.0)], 2)
  {
    OffdiagIs(FORM);
    var listed := [SymEntry(0, 1, 1.0), SymEntry(0, 2, 1.0), SymEntry(2, 3, 1.0)];
    forall e ensures Lists(FORM, e) <==> e in listed {
    }
    StrictlySortedIsUnique(Offdiag(FORM), listed);
  }

  lemma HalfSumIs()
    ensures HalfSum([-1, -1, -1, -1]) == -2.0
  {
    var three: seq<int>, two: seq<int>, one: seq<int> := [-1, -1, -1], [-1, -1], [-1];
    assert Front(three + [-1]) == three && Front(three) == two && Front(two) == one && Front(one) == [];
    assert three + [-1] == [-1, -1, -1, -1];
    assert HalfSum(one) == -0.5 && HalfSum(two) == -1.0 && HalfSum(three) == -1.5;
  }

  lemma IsingIs()
    ensures PlacesWithin(Assemble(FORM).offdiag, 4)
    ensures IsingOf(Assemble(FORM))
         == Ising([-0.5, 0.0, -0.5, 0.0], [SymEntry(0, 1, 0.5), SymEntry(0, 2, 0.5), SymEntry(2, 3, 0.5)], 1.5)
  {
    QuboIs();
    HalfSumIs();
    hide Assemble, HalfSum;
    var q := Assemble(FORM);
    assert IsingStart(q.diag, q.e0) == Ising([0.5, 0.5, 0.5, 0.5], [], 0.0);
    assert IsingOfPrefix(q, 1) == Ising([0.0, 0.0, 0.5, 0.5], [SymEntry(0, 1, 0.5)], 0.5);
    assert IsingOfPrefix(q, 2) == Ising([-0.5, 0.0, 0.0, 0.5], [SymEntry(0, 1, 0.5), SymEntry(0, 2, 0.5)], 1.0);
  }

  lemma InRange()
    ensures PlacesWithin(Assemble(FORM).offdiag, 4) && InExactRange(Assemble(FORM), IsingOf(Assemble(FORM)))
  {
    QuboIs();
    IsingIs();
    hide IsingOf, Assemble;
  }

  lemma DeltaIs()
    ensures DeltaOf(SCENARIO) == 0
  {
    Sorted();
    TableIs();
    TermsAre();
    hide EconomicSteps, NameVariables, StepsWeight;
  }

  lemma Compiles()
    ensures Compile(SCENARIO, POLICY).Compiled?
  {
    Accepted();
    GatePassesExactlyValid(SCENARIO, POLICY);
    AfterIs();
    InRange();
    DeltaIs();
    hide PolicyRefusals, ScenarioRefusals, ValidScenario, AfterBudgets, DeltaOf, InExactRange, IsingOf, Assemble, FloorRefusals;
  }

  // ---------------------------------------------------------------------------
  // The other order
  // ---------------------------------------------------------------------------

  const REORDERED := SCENARIO.(precedence := [BACK, THERE])

  lemma BothBite()
    ensures Bites(TABLE, THERE, WINDOWS, 1) && Bites(TABLE, BACK, WINDOWS, 1)
  {
    Keys();
    hide BitKey;
    assert ForbidsAt(TABLE, THERE, WINDOWS, 0, 0) && ForbidsAt(TABLE, BACK, WINDOWS, 0, 0);
    BitesExactly(TABLE, THERE, WINDOWS, 1);
    BitesExactly(TABLE, BACK, WINDOWS, 1);
  }

  lemma SortedOtherwise()
    ensures SortedPrecedence(REORDERED) == [BACK, THERE]
  {
    OneKey();
    StringLessIrreflexive("x|x|x");
    hide PrecedenceKey, StringLess;
    assert SortedBy([BACK, THERE], PrecedenceKey);
    SortSorted([BACK, THERE], PrecedenceKey);
  }

  lemma Ambiguous()
    ensures !OrderUnambiguous(SCENARIO)
  {
    TableIs();
    BothBite();
    OneKey();
    BitesExactly(TABLE, THERE, WINDOWS, 1);
    BitesExactly(TABLE, BACK, WINDOWS, 1);
    hide PrecedenceKey, Forbids, Bites, NameVariables;
    assert THERE in SCENARIO.precedence && BACK in SCENARIO.precedence;
  }

  lemma OtherConstraints()
    ensures PrecedenceConstraints(VariablesOf(SCENARIO), SortedPrecedence(SCENARIO), WINDOWS, 1)
         != PrecedenceConstraints(VariablesOf(SCENARIO), SortedPrecedence(REORDERED), WINDOWS, 1)
  {
    Sorted();
    SortedOtherwise();
    TableIs();
    BothBite();
    OneKey();
    hide PrecedenceKey, NameVariables, PrecedenceConstraints, SortBy, Bites;
    assert Swapped([THERE, BACK], 0, 1) == [BACK, THERE];
    SwapShows(TABLE, [THERE, BACK], 0, 1, WINDOWS, 1);
  }

  lemma OrdersAligned()
    ensures Reordered(SCENARIO, REORDERED) && Aligned(SCENARIO, REORDERED)
  {
    assert multiset([THERE, BACK]) == multiset([BACK, THERE]);
    assert |"x"| != |"x|x"|;
    assert UniqueDraws(DRAWS);
    hide SortBy;
    SortedSame(SCENARIO, REORDERED);
  }

  /** The compiler accepts both orders of one scenario and returns different artifacts for them. */
  lemma OrderShows()
    ensures Reordered(SCENARIO, REORDERED) && !OrderUnambiguous(SCENARIO)
    ensures Compile(SCENARIO, POLICY).Compiled? && Compile(REORDERED, POLICY).Compiled?
    ensures Compile(SCENARIO, POLICY) != Compile(REORDERED, POLICY)
  {
    hide Compile, Reordered, Aligned, OrderUnambiguous, NameVariables, PrecedenceConstraints, SortBy;
    Ambiguous();
    Compiles();
    OrdersAligned();
    CompileIgnoresOrder(SCENARIO, REORDERED, POLICY);
    OtherConstraints();
    if Compile(SCENARIO, POLICY) == Compile(REORDERED, POLICY) {
      OtherConstraintsShow(SCENARIO, REORDERED, POLICY);
    }
  }
}
