/**
 * Which encoding every window of a scenario gets, read off the scenario alone:
 * the draws that can be placed in the window, their amounts and its cap.
 */
module BudgetChoice {
  import opened Sums
  import opened Ordering
  import opened QuadraticForm
  import opened Artifact
  import opened PairPruning
  import opened Slack
  import opened Scenario
  import opened CompilerSpec
  import opened Decomposition
  import opened VariableTable
  import opened Meaning

  // ---------------------------------------------------------------------------
  // The question, in terms of the scenario
  // ---------------------------------------------------------------------------

  /** `e` may be placed in `u`, and that pair is looked up under the same joined key as `d` in `w`. */
  predicate SharesBit(e: Draw, u: Window, d: Draw, w: Window) {
    u.id in e.windowEligibility && e.amountMinor <= u.liquidityCapMinor && e.id + "|" + u.id == d.id + "|" + w.id
  }

  /** Looking `d` up in `w` finds a bit. Without shared keys: `d` is eligible for `w` and fits its cap. */
  ghost predicate FindsBit(s: FrozenScenario, d: Draw, w: Window) {
    exists i, j :: 0 <= i < |s.draws| && 0 <= j < |s.windows| && SharesBit(s.draws[i], s.windows[j], d, w)
  }

  /** The amounts of those of `ds` that find a bit for `w`, in order. */
  ghost function Demand(s: FrozenScenario, ds: seq<Draw>, w: Window): seq<int> {
    if ds == [] then []
    else Demand(s, Front(ds), w) + if FindsBit(s, Last(ds), w) then [Last(ds).amountMinor] else []
  }

  function Sum(amounts: seq<int>): int {
    if amounts == [] then 0 else Sum(Front(amounts)) + Last(amounts)
  }

  /** The draws of the scenario, in ascending order of id. */
  ghost predicate ById(s: FrozenScenario, ds: seq<Draw>) {
    multiset(ds) == multiset(s.draws) && forall i, j :: 0 <= i < j < |ds| ==> ComesBefore(ds[i].id, ds[j].id)
  }

  /** Placing all of them would break the cap. */
  predicate Overfull(amounts: seq<int>, cap: int) {
    Sum(amounts) > cap
  }

  /** Within the node budget, forbidding over-cap pairs forbids every over-cap set. */
  ghost predicate PairsSuffice(amounts: seq<int>, cap: int) {
    |FittingSets(amounts, cap)| <= 200_000 && !Misled(amounts, cap)
  }

  ghost predicate DividesAll(u: nat, amounts: seq<int>, cap: int) {
    u > 0 && cap % u == 0 && forall i :: 0 <= i < |amounts| ==> amounts[i] % u == 0
  }

  ghost predicate GreatestUnit(u: nat, amounts: seq<int>, cap: int) {
    DividesAll(u, amounts, cap) && forall t: nat :: DividesAll(t, amounts, cap) ==> u % t == 0
  }

  /** In every unit that measures the amounts and the cap, the cap has more than `allowed` binary digits. */
  ghost predicate TooWide(amounts: seq<int>, cap: int, allowed: nat) {
    forall u: nat :: DividesAll(u, amounts, cap) ==> cap / u >= Pow2(allowed)
  }

  /** `n` has `k` binary digits. */
  predicate Digits(n: int, k: nat) {
    k > 0 && Pow2(k - 1) <= n < Pow2(k)
  }

  // ---------------------------------------------------------------------------
  // The lookup table answers it
  // ---------------------------------------------------------------------------

  lemma FindsWhatIsNamed(s: FrozenScenario, d: Draw, w: Window)
    ensures HasX(VariablesOf(s), d.id, w.id) <==> FindsBit(s, d, w)
  {
    var ds, ws, k := SortedDraws(s), s.windows, BitKey(d.id, w.id);
    NameVariablesKeys(ds, ws);
    SortKeepsElements(s.draws, DrawKey);
    hide SortBy, NameVariables;
    if k in LiveKeys(ds, ws) {
      var i, j := LiveKeysOrigin(ds, ws, k);
      assert ds[i] in s.draws;
      var a :| 0 <= a < |s.draws| && s.draws[a] == ds[i];
      assert SharesBit(s.draws[a], ws[j], d, w);
    }
    if FindsBit(s, d, w) {
      var a, j :| 0 <= a < |s.draws| && 0 <= j < |ws| && SharesBit(s.draws[a], ws[j], d, w);
      assert s.draws[a] in ds;
      var i :| 0 <= i < |ds| && ds[i] == s.draws[a];
      LiveKeysCover(ds, ws, i, j);
    }
  }

  /** Without shared keys only the pair itself counts. */
  lemma FindsBitAlone(s: FrozenScenario, i: nat, j: nat)
    requires KeysDistinct(s.draws, s.windows) && i < |s.draws| && j < |s.windows|
    ensures FindsBit(s, s.draws[i], s.windows[j])
       <==> s.windows[j].id in s.draws[i].windowEligibility && s.draws[i].amountMinor <= s.windows[j].liquidityCapMinor
  {
    var d, w := s.draws[i], s.windows[j];
    if FindsBit(s, d, w) {
      var a, b :| 0 <= a < |s.draws| && 0 <= b < |s.windows| && SharesBit(s.draws[a], s.windows[b], d, w);
      SameKeySamePair(s.draws, s.windows, a, b, i, j);
    }
    if w.id in d.windowEligibility && d.amountMinor <= w.liquidityCapMinor {
      assert SharesBit(d, w, d, w);
    }
  }

  lemma {:induction false} MembersAmount(s: FrozenScenario, ds: seq<Draw>, w: Window)
    ensures Amounts(Members(VariablesOf(s), ds, w.id)) == Demand(s, ds, w)
  {
    hide HasX, FindsBit, VariablesOf, XBit;
    if ds != [] {
      MembersAmount(s, Front(ds), w);
      FindsWhatIsNamed(s, Last(ds), w);
      var rest, more := Members(VariablesOf(s), Front(ds), w.id), Members(VariablesOf(s), ds, w.id);
      if FindsBit(s, Last(ds), w) {
        assert Amounts(more) == Amounts(rest) + [Last(ds).amountMinor];
      } else {
        assert more == rest;
      }
    }
  }

  lemma {:induction false} MembersSum(ms: seq<Member>)
    ensures MembersTotal(ms) == Sum(Amounts(ms))
  {
    if ms != [] {
      MembersSum(Front(ms));
      assert Front(Amounts(ms)) == Amounts(Front(ms));
    }
  }

  lemma EncodingAnswers(ms: seq<Member>, cap: int)
    ensures EncodingOf(ms, cap) == NoBudget <==> !Overfull(Amounts(ms), cap)
    ensures EncodingOf(ms, cap) == PairPruned <==> Overfull(Amounts(ms), cap) && PairsSuffice(Amounts(ms), cap)
  {
    hide Misled, FittingSets;
    MembersSum(ms);
    ExactExactly(Amounts(ms), cap);
  }

  lemma UnitIsUnit(ms: seq<Member>, cap: nat)
    requires PositiveMembers(ms) && cap > 0
    ensures GreatestUnit(Unit(NatAmounts(ms), cap), Amounts(ms), cap)
  {
    var amounts := NatAmounts(ms);
    UnitDivides(amounts, cap);
    var unit := Unit(amounts, cap);
    assert DividesAll(unit, Amounts(ms), cap) by {
      forall i | 0 <= i < |amounts| ensures Amounts(ms)[i] % unit == 0 { assert Divides(unit, amounts[i]); }
    }
    forall t: nat | DividesAll(t, Amounts(ms), cap) ensures unit % t == 0 {
      assert CommonDivisor(t, amounts, cap);
      UnitIsGreatest(amounts, cap, t);
    }
  }

  lemma {:induction false} Pow2Monotone(a: nat, b: nat)
    requires a <= b
    ensures Pow2(a) <= Pow2(b)
  {
    if a < b { Pow2Monotone(a, b - 1); }
  }

  // more than `allowed` digits is at least 2^allowed
  lemma DigitsExceed(n: nat, allowed: nat)
    requires n > 0
    ensures Digits(n, BitLength(n))
    ensures BitLength(n) > allowed <==> Pow2(allowed) <= n
  {
    BitLengthBounds(n);
    if BitLength(n) > allowed {
      Pow2Monotone(allowed, BitLength(n) - 1);
    } else {
      Pow2Monotone(BitLength(n), allowed);
    }
  }

  lemma LargestQuotient(amounts: seq<int>, cap: nat, unit: nat, t: nat)
    requires cap > 0 && GreatestUnit(unit, amounts, cap) && DividesAll(t, amounts, cap)
    ensures 0 < cap / unit <= cap / t
  {
    assert Divides(t, unit) && Divides(unit, cap) && Divides(t, cap);
    DivisorBound(t, unit);
    QuotientOrder(t, unit, cap);
    DivisorBound(unit, cap);
    Quotient(unit, cap);
  }

  lemma WidthAnswers(ms: seq<Member>, cap: nat, allowed: nat)
    requires PositiveMembers(ms) && cap > 0
    ensures Unit(NatAmounts(ms), cap) > 0 && Digits(cap / Unit(NatAmounts(ms), cap), SlackWidth(NatAmounts(ms), cap))
    ensures SlackWidth(NatAmounts(ms), cap) > allowed <==> TooWide(Amounts(ms), cap, allowed)
  {
    var unit, amounts := Unit(NatAmounts(ms), cap), Amounts(ms);
    UnitIsUnit(ms, cap);
    LargestQuotient(amounts, cap, unit, unit);
    DigitsExceed(cap / unit, allowed);
    if SlackWidth(NatAmounts(ms), cap) > allowed {
      forall t: nat | DividesAll(t, amounts, cap) ensures cap / t >= Pow2(allowed) {
        LargestQuotient(amounts, cap, unit, t);
      }
    }
  }

  // ---------------------------------------------------------------------------
  // What the budget phase records for a window
  // ---------------------------------------------------------------------------

  /** The slack symbols of window `id` are numbered 0, 1, ... below `k`. */
  ghost predicate SlackNumbered(symbols: seq<Symbol>, id: string, k: nat) {
    forall b: nat :: SlackSymbol(id, b) in symbols <==> b < k
  }

  /** The slack bits of window `id` cover `n` and no bit of them is spare. */
  ghost predicate SlackCovers(symbols: seq<Symbol>, id: string, n: int) {
    exists k: nat :: Digits(n, k) && SlackNumbered(symbols, id, k)
  }

  /** What is on record about windows: their encodings, slack units, refusals and slack symbols. */
  datatype Books = Books(encodings: map<string, Encoding>, units: map<string, nat>, refusals: seq<Refusal>, symbols: seq<Symbol>)

  function BooksOf(st: BudgetState): Books {
    Books(st.encodings, st.units, st.refusals, st.symbols)
  }

  predicate Encoded(b: Books, id: string, e: Encoding) {
    id in b.encodings && b.encodings[id] == e
  }

  /** The books hold for `w` what the amounts that want into it ask for. */
  ghost predicate Chosen(b: Books, amounts: seq<int>, w: Window, allowed: nat) {
    var cap := w.liquidityCapMinor;
    && (Encoded(b, w.id, NoBudget) <==> !Overfull(amounts, cap))
    && (Encoded(b, w.id, PairPruned) <==> Overfull(amounts, cap) && PairsSuffice(amounts, cap))
    && (Encoded(b, w.id, SlackEncoded)
        <==> Overfull(amounts, cap) && !PairsSuffice(amounts, cap) && !TooWide(amounts, cap, allowed))
    && (SlackBitsExceedPolicy(w.id) in b.refusals
        <==> Overfull(amounts, cap) && !PairsSuffice(amounts, cap) && TooWide(amounts, cap, allowed))
    && (w.id in b.units <==> Encoded(b, w.id, SlackEncoded))
    && (if w.id in b.units
        then GreatestUnit(b.units[w.id], amounts, cap) && SlackCovers(b.symbols, w.id, cap / b.units[w.id])
        else SlackNumbered(b.symbols, w.id, 0))
  }

  /** Nothing is on record about window `id` yet. */
  ghost predicate Blank(b: Books, id: string) {
    id !in b.encodings && id !in b.units && SlackBitsExceedPolicy(id) !in b.refusals && SlackNumbered(b.symbols, id, 0)
  }

  lemma {:induction false} SlackSymbolsNumbered(window: string, k: nat, id: string, b: nat)
    ensures SlackSymbol(id, b) in SlackSymbols(window, k) <==> id == window && b < k
  {
    if k > 0 { SlackSymbolsNumbered(window, k - 1, id, b); }
  }

  lemma SlackAdded(symbols: seq<Symbol>, window: string, k: nat, id: string, n: nat)
    requires SlackNumbered(symbols, id, n) && (id == window ==> n == 0)
    ensures SlackNumbered(symbols + SlackSymbols(window, k), id, if id == window then k else n)
  {
    forall b: nat
      ensures SlackSymbol(id, b) in symbols + SlackSymbols(window, k) <==> b < if id == window then k else n
    {
      SlackSymbolsNumbered(window, k, id, b);
    }
  }

  lemma StepChooses(st: BudgetState, ms: seq<Member>, w: Window, policy: PenaltyPolicy)
    requires PositiveMembers(ms) && w.liquidityCapMinor > 0 && policy.maxSlackBits >= 0
    requires Blank(BooksOf(st), w.id)
    ensures Chosen(BooksOf(BudgetStep(st, ms, w, policy)), Amounts(ms), w, policy.maxSlackBits)
  {
    var cap, allowed, r := w.liquidityCapMinor, policy.maxSlackBits, BudgetStep(st, ms, w, policy);
    EncodingAnswers(ms, cap);
    WidthAnswers(ms, cap, allowed);
    UnitIsUnit(ms, cap);
    hide Overfull, PairsSuffice, TooWide, GreatestUnit, EncodingOf, Unit, SlackWidth, Digits, OverCapPairs, SquareSteps, BudgetTerms, Apply, Grow;
    if EncodingOf(ms, cap) == SlackEncoded && SlackWidth(NatAmounts(ms), cap) <= allowed {
      SlackAdded(st.symbols, w.id, SlackWidth(NatAmounts(ms), cap), w.id, 0);
      assert Digits(cap / r.units[w.id], SlackWidth(NatAmounts(ms), cap));
      assert SlackCovers(r.symbols, w.id, cap / r.units[w.id]);
    }
  }

  lemma StepKeepsOthers(st: BudgetState, ms: seq<Member>, w: Window, policy: PenaltyPolicy, id: string, n: nat)
    requires PositiveMembers(ms) && w.liquidityCapMinor > 0 && id != w.id
    ensures var r := BudgetStep(st, ms, w, policy);
            && (id in r.encodings <==> id in st.encodings) && (id in st.encodings ==> r.encodings[id] == st.encodings[id])
            && (id in r.units <==> id in st.units) && (id in st.units ==> r.units[id] == st.units[id])
            && (SlackBitsExceedPolicy(id) in r.refusals <==> SlackBitsExceedPolicy(id) in st.refusals)
            && (SlackNumbered(st.symbols, id, n) ==> SlackNumbered(r.symbols, id, n))
  {
    hide EncodingOf, Unit, SlackWidth, OverCapPairs, SquareSteps, BudgetTerms, Apply, Grow, SlackNumbered;
    if SlackNumbered(st.symbols, id, n) && EncodingOf(ms, w.liquidityCapMinor) == SlackEncoded {
      SlackAdded(st.symbols, w.id, SlackWidth(NatAmounts(ms), w.liquidityCapMinor), id, n);
    }
  }

  lemma StepKeepsBlank(st: BudgetState, ms: seq<Member>, w: Window, policy: PenaltyPolicy, id: string)
    requires PositiveMembers(ms) && w.liquidityCapMinor > 0 && id != w.id && Blank(BooksOf(st), id)
    ensures Blank(BooksOf(BudgetStep(st, ms, w, policy)), id)
  {
    hide BudgetStep, SlackNumbered;
    StepKeepsOthers(st, ms, w, policy, id, 0);
  }

  lemma StepKeepsChoice(st: BudgetState, ms: seq<Member>, w: Window, policy: PenaltyPolicy, amounts: seq<int>, u: Window, allowed: nat)
    requires PositiveMembers(ms) && w.liquidityCapMinor > 0 && u.id != w.id && Chosen(BooksOf(st), amounts, u, allowed)
    ensures Chosen(BooksOf(BudgetStep(st, ms, w, policy)), amounts, u, allowed)
  {
    hide BudgetStep, SlackNumbered, Overfull, PairsSuffice, TooWide, Digits;
    if u.id in st.units {
      var k: nat :| Digits(u.liquidityCapMinor / st.units[u.id], k) && SlackNumbered(st.symbols, u.id, k);
      StepKeepsOthers(st, ms, w, policy, u.id, k);
      assert SlackCovers(BudgetStep(st, ms, w, policy).symbols, u.id, u.liquidityCapMinor / st.units[u.id]);
    } else {
      StepKeepsOthers(st, ms, w, policy, u.id, 0);
    }
  }

  lemma {:induction false} BudgetsKeepBlank(st: BudgetState, v: Variables, draws: seq<Draw>, ws: seq<Window>, policy: PenaltyPolicy, id: string)
    requires PositiveAmounts(draws) && PositiveCaps(ws) && Blank(BooksOf(st), id)
    requires forall j :: 0 <= j < |ws| ==> ws[j].id != id
    ensures Blank(BooksOf(Budgets(st, v, draws, ws, policy)), id)
  {
    hide BudgetStep, Blank;
    if ws != [] {
      BudgetsKeepBlank(st, v, draws, Front(ws), policy, id);
      MembersPositive(v, draws, Last(ws).id);
      StepKeepsBlank(Budgets(st, v, draws, Front(ws), policy), Members(v, draws, Last(ws).id), Last(ws), policy, id);
    }
  }

  lemma {:induction false} BudgetsChoose(st: BudgetState, v: Variables, draws: seq<Draw>, ws: seq<Window>, policy: PenaltyPolicy, j: nat)
    requires PositiveAmounts(draws) && PositiveCaps(ws) && policy.maxSlackBits >= 0 && UniqueWindows(ws) && j < |ws|
    requires Blank(BooksOf(st), ws[j].id)
    ensures Chosen(BooksOf(Budgets(st, v, draws, ws, policy)), Amounts(Members(v, draws, ws[j].id)), ws[j], policy.maxSlackBits)
  {
    hide BudgetStep, Blank, Chosen, Members;
    var before, w := Budgets(st, v, draws, Front(ws), policy), Last(ws);
    MembersPositive(v, draws, w.id);
    if j < |ws| - 1 {
      BudgetsChoose(st, v, draws, Front(ws), policy, j);
      StepKeepsChoice(before, Members(v, draws, w.id), w, policy, Amounts(Members(v, draws, ws[j].id)), ws[j], policy.maxSlackBits);
    } else {
      BudgetsKeepBlank(st, v, draws, Front(ws), policy, w.id);
      StepChooses(before, Members(v, draws, w.id), w, policy);
    }
  }

  // ---------------------------------------------------------------------------
  // The refusal list
  // ---------------------------------------------------------------------------

  /** The windows, in order, whose cap needs slack and more of it than the policy allows. */
  ghost function Refused(s: FrozenScenario, ds: seq<Draw>, ws: seq<Window>, allowed: nat): seq<Refusal> {
    if ws == [] then []
    else
      var w := Last(ws);
      var amounts, cap := Demand(s, ds, w), w.liquidityCapMinor;
      Refused(s, ds, Front(ws), allowed) +
      if Overfull(amounts, cap) && !PairsSuffice(amounts, cap) && TooWide(amounts, cap, allowed)
      then [SlackBitsExceedPolicy(w.id)] else []
  }

  lemma {:induction false} BudgetsRefuse(s: FrozenScenario, st: BudgetState, ds: seq<Draw>, ws: seq<Window>, policy: PenaltyPolicy)
    requires PositiveAmounts(ds) && PositiveCaps(ws) && policy.maxSlackBits >= 0
    ensures Budgets(st, VariablesOf(s), ds, ws, policy).refusals == st.refusals + Refused(s, ds, ws, policy.maxSlackBits)
  {
    hide Members, VariablesOf, Overfull, PairsSuffice, TooWide, Demand;
    if ws != [] {
      var v, w := VariablesOf(s), Last(ws);
      BudgetsRefuse(s, st, ds, Front(ws), policy);
      MembersPositive(v, ds, w.id);
      MembersAmount(s, ds, w);
      StepRefuses(Budgets(st, v, ds, Front(ws), policy), Members(v, ds, w.id), w, policy);
    }
  }

  lemma StepRefuses(st: BudgetState, ms: seq<Member>, w: Window, policy: PenaltyPolicy)
    requires PositiveMembers(ms) && w.liquidityCapMinor > 0 && policy.maxSlackBits >= 0
    ensures var amounts, cap := Amounts(ms), w.liquidityCapMinor;
            BudgetStep(st, ms, w, policy).refusals == st.refusals +
              if Overfull(amounts, cap) && !PairsSuffice(amounts, cap) && TooWide(amounts, cap, policy.maxSlackBits)
              then [SlackBitsExceedPolicy(w.id)] else []
  {
    EncodingAnswers(ms, w.liquidityCapMinor);
    WidthAnswers(ms, w.liquidityCapMinor, policy.maxSlackBits);
    hide Overfull, PairsSuffice, TooWide, EncodingOf, Unit, SlackWidth, OverCapPairs, SquareSteps, BudgetTerms, Apply, Grow;
  }

  // ---------------------------------------------------------------------------
  // What the compiler did
  // ---------------------------------------------------------------------------

  /** Sorting by id is the only way to list the draws in ascending order of id. */
  lemma SortedIsById(s: FrozenScenario, ds: seq<Draw>)
    requires UniqueDraws(s.draws)
    ensures ById(s, ds) <==> ds == SortedDraws(s)
  {
    var sorted := SortedDraws(s);
    SortedDrawsUnique(s);
    SortBySorts(s.draws, DrawKey);
    forall i, j | 0 <= i < j < |sorted| ensures ComesBefore(sorted[i].id, sorted[j].id) {
      assert !StringLess(DrawKey(sorted[j]), DrawKey(sorted[i]));
      StringLessTotal(sorted[i].id, sorted[j].id);
      StringLessExactly(sorted[i].id, sorted[j].id);
    }
    if ById(s, ds) {
      forall i, j | 0 <= i < j < |ds| ensures !StringLess(DrawKey(ds[j]), DrawKey(ds[i])) {
        StringLessExactly(ds[i].id, ds[j].id);
        NotBoth(ds[i].id, ds[j].id);
      }
      assert KeyDetermines(sorted, DrawKey) by {
        forall i, j | 0 <= i < |sorted| && 0 <= j < |sorted| && DrawKey(sorted[i]) == DrawKey(sorted[j]) ensures sorted[i] == sorted[j] {
          UniqueIndex(sorted, i, j);
        }
      }
      SortedIsUnique(sorted, ds, DrawKey);
    }
  }

  lemma NamesNoSlack(draws: seq<Draw>, ws: seq<Window>, id: string)
    ensures SlackNumbered(NameVariables(draws, ws).symbols, id, 0)
  {
    NameVariablesWithin(draws, |draws|, ws);
    assert draws[..|draws|] == draws;
  }

  lemma StartsBlank(s: FrozenScenario, policy: PenaltyPolicy, id: string)
    ensures Blank(BooksOf(StateBeforeBudgets(s, policy)), id)
  {
    NamesNoSlack(SortedDraws(s), s.windows, id);
    EveryDrawNamed(SortedDraws(s), s.windows);
    hide NameVariables, SortBy, Apply, SlackNumbered, PrecedenceConstraints, CardinalityConstraints;
  }

  lemma AfterBudgetsChosen(s: FrozenScenario, policy: PenaltyPolicy, j: nat)
    requires ValidPolicy(policy) && ValidScenario(s, policy) && j < |s.windows|
    ensures PositiveAmounts(s.draws) && PositiveCaps(s.windows)
    ensures Chosen(BooksOf(AfterBudgets(s, policy)), Demand(s, SortedDraws(s), s.windows[j]), s.windows[j], policy.maxSlackBits)
  {
    ValidIsPositive(s, policy);
    SortedDrawsPositive(s);
    StartsBlank(s, policy, s.windows[j].id);
    MembersAmount(s, SortedDraws(s), s.windows[j]);
    hide Blank, Chosen, Members, Budgets, BeforeBudgets, Demand, SortBy, NameVariables;
    BudgetsChoose(StateBeforeBudgets(s, policy), VariablesOf(s), SortedDraws(s), s.windows, policy, j);
  }

  lemma StartsUnrefused(s: FrozenScenario, policy: PenaltyPolicy)
    ensures StateBeforeBudgets(s, policy).refusals == []
  {
    hide NameVariables, SortBy, Apply, PrecedenceConstraints, CardinalityConstraints;
  }

  lemma AfterBudgetsRefused(s: FrozenScenario, policy: PenaltyPolicy)
    requires ValidPolicy(policy) && ValidScenario(s, policy)
    ensures PositiveAmounts(s.draws) && PositiveCaps(s.windows)
    ensures AfterBudgets(s, policy).refusals == Refused(s, SortedDraws(s), s.windows, policy.maxSlackBits)
  {
    ValidIsPositive(s, policy);
    SortedDrawsPositive(s);
    StartsUnrefused(s, policy);
    hide Members, Budgets, BeforeBudgets, Demand, SortBy, NameVariables, Refused, PositiveAmounts, PositiveCaps;
    BudgetsRefuse(s, StateBeforeBudgets(s, policy), SortedDraws(s), s.windows, policy);
  }

  lemma CompiledBooks(s: FrozenScenario, policy: PenaltyPolicy)
    requires Compile(s, policy).Compiled?
    ensures ValidPolicy(policy) && ValidScenario(s, policy) && PositiveAmounts(s.draws) && PositiveCaps(s.windows)
    ensures var a := Compile(s, policy).artifact;
            BooksOf(AfterBudgets(s, policy)) == Books(a.encodings, a.slackUnits, [], a.symbols)
  {
    CompiledMeans(s, policy);
    hide PolicyRefusals, ScenarioRefusals, ValidScenario, ValidPolicy, AfterBudgets, DeltaOf, InExactRange, FloorRefusals, IsingOf, Assemble;
  }

  /**
   * For every artifact and window: no encoding exactly if all draws that find a bit for the window fit its cap together;
   * pair pruning exactly if they do not but pairs suffice; otherwise slack, in the greatest unit and with as many bits as
   * the cap has binary digits in it.
   */
  lemma EncodingsAnswer(s: FrozenScenario, policy: PenaltyPolicy, ds: seq<Draw>, j: nat)
    requires Compile(s, policy).Compiled? && ById(s, ds) && j < |s.windows|
    ensures var a, w := Compile(s, policy).artifact, s.windows[j];
            var amounts, cap := Demand(s, ds, w), w.liquidityCapMinor;
            && w.id in a.encodings
            && (a.encodings[w.id] == NoBudget <==> Sum(amounts) <= cap)
            && (a.encodings[w.id] == PairPruned
                <==> Sum(amounts) > cap && |FittingSets(amounts, cap)| <= 200_000 && !Misled(amounts, cap))
            && (a.encodings[w.id] == SlackEncoded
                <==> Sum(amounts) > cap && (|FittingSets(amounts, cap)| > 200_000 || Misled(amounts, cap)))
            && (w.id in a.slackUnits <==> a.encodings[w.id] == SlackEncoded)
            && (if w.id in a.slackUnits
                then GreatestUnit(a.slackUnits[w.id], amounts, cap) && SlackCovers(a.symbols, w.id, cap / a.slackUnits[w.id])
                else SlackNumbered(a.symbols, w.id, 0))
  {
    CompiledBooks(s, policy);
    SortedIsById(s, ds);
    AfterBudgetsChosen(s, policy, j);
    hide Compile, ById, Demand, Sum, FittingSets, Misled, TooWide, GreatestUnit, SlackCovers, SlackNumbered, ValidPolicy, ValidScenario, SortBy, Budgets;
  }

  ghost predicate Refuses(r: CompileResult, refusal: Refusal) {
    r.RequiresRemodeling? && refusal in r.refusals
  }

  lemma {:induction false} RefusedAre(s: FrozenScenario, ds: seq<Draw>, ws: seq<Window>, allowed: nat, j: nat)
    requires UniqueWindows(ws) && j < |ws|
    ensures var w := ws[j];
            var amounts, cap := Demand(s, ds, w), w.liquidityCapMinor;
            SlackBitsExceedPolicy(w.id) in Refused(s, ds, ws, allowed)
            <==> Overfull(amounts, cap) && !PairsSuffice(amounts, cap) && TooWide(amounts, cap, allowed)
  {
    hide Overfull, PairsSuffice, TooWide, Demand;
    if j < |ws| - 1 {
      RefusedAre(s, ds, Front(ws), allowed, j);
    } else {
      RefusedNone(s, ds, Front(ws), allowed, ws[j].id);
    }
  }

  lemma {:induction false} RefusedNone(s: FrozenScenario, ds: seq<Draw>, ws: seq<Window>, allowed: nat, id: string)
    requires forall j :: 0 <= j < |ws| ==> ws[j].id != id
    ensures SlackBitsExceedPolicy(id) !in Refused(s, ds, ws, allowed)
  {
    hide Overfull, PairsSuffice, TooWide, Demand;
    if ws != [] { RefusedNone(s, ds, Front(ws), allowed, id); }
  }

  lemma {:induction false} FloorNamesKinds(cs: seq<Constraint>, deltaEMax: int)
    ensures forall r :: r in FloorRefusals(cs, deltaEMax) ==> r.PenaltyBelowFloor?
  {
    if cs != [] { FloorNamesKinds(Front(cs), deltaEMax); }
  }

  lemma FinishRefusesSlack(s: FrozenScenario, st: BudgetState, pruned: seq<Pruned>, deltaEMax: int, id: string)
    ensures st.refusals != [] ==> Finish(s, st, pruned, deltaEMax) == RequiresRemodeling(st.refusals)
    ensures Refuses(Finish(s, st, pruned, deltaEMax), SlackBitsExceedPolicy(id)) <==> SlackBitsExceedPolicy(id) in st.refusals
  {
    FloorNamesKinds(st.constraints, deltaEMax);
    hide FloorRefusals, InExactRange, IsingOf, Assemble, StampDelta;
  }

  lemma CompileValidIs(s: FrozenScenario, policy: PenaltyPolicy)
    requires ValidPolicy(policy) && ValidScenario(s, policy)
    ensures PositiveAmounts(s.draws) && PositiveCaps(s.windows)
    ensures Compile(s, policy) == Finish(s, AfterBudgets(s, policy), VariablesOf(s).pruned, DeltaOf(s))
  {
    GatePassesExactlyValid(s, policy);
    ValidIsPositive(s, policy);
    hide PolicyRefusals, ScenarioRefusals, ValidScenario, ValidPolicy, AfterBudgets, DeltaOf, Finish, NameVariables, SortBy;
  }

  /**
   * A valid scenario is refused for slack exactly if some window's cap needs slack and, in every unit that measures
   * amounts and cap, has more binary digits than the policy allows; then for all those windows, in order.
   */
  lemma SlackRefusalsAnswer(s: FrozenScenario, policy: PenaltyPolicy, ds: seq<Draw>, j: nat)
    requires ValidPolicy(policy) && ValidScenario(s, policy) && ById(s, ds) && j < |s.windows|
    ensures var w := s.windows[j];
            var amounts, cap := Demand(s, ds, w), w.liquidityCapMinor;
            (Refuses(Compile(s, policy), SlackBitsExceedPolicy(w.id))
             <==> Sum(amounts) > cap && (|FittingSets(amounts, cap)| > 200_000 || Misled(amounts, cap))
                  && forall u: nat :: DividesAll(u, amounts, cap) ==> cap / u >= Pow2(policy.maxSlackBits))
    ensures var refused := Refused(s, ds, s.windows, policy.maxSlackBits);
            refused != [] ==> Compile(s, policy) == RequiresRemodeling(refused)
  {
    SortedIsById(s, ds);
    CompileValidIs(s, policy);
    AfterBudgetsRefused(s, policy);
    RefusedAre(s, ds, s.windows, policy.maxSlackBits, j);
    FinishRefusesSlack(s, AfterBudgets(s, policy), VariablesOf(s).pruned, DeltaOf(s), s.windows[j].id);
    hide Compile, ById, Demand, Sum, FittingSets, Misled, DividesAll, ValidPolicy, ValidScenario, SortBy, AfterBudgets, Finish, Refused, Refuses, VariablesOf, DeltaOf;
  }
}
