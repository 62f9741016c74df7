/** The compiler itself: loops that name bits and add terms to the builder in place. */
module Compiler {
  import opened Sums
  import opened Ordering
  import opened QuadraticForm
  import opened Artifact
  import opened PairPruning
  import opened Slack
  import opened Scenario
  import opened CompilerSpec
  import opened Decomposition
  import opened QuboBuilding

  lemma ApplyMore(f: Form, done: seq<Step>, s: Step)
    ensures Apply(f, done + [s]) == ApplyStep(Apply(f, done), s)
    ensures StepsWeight(done + [s]) == StepsWeight(done) + Abs(s.w)
    ensures StepBits(done + [s]) == StepBits(done) + StepBits([s])
  {
    assert Front(done + [s]) == done;
    assert Front([s]) == [];
  }

  lemma NothingApplied(f: Form)
    ensures Apply(f, []) == f && StepsWeight([]) == 0 && StepBits([]) == {}
  {
  }

  lemma OneStepBits(s: Step)
    requires s.Pair?
    ensures StepBits([s]) == {s.p, s.q}
  {
    assert Front([s]) == [];
  }

  /** Creates the x bits of one draw, recording the pruned ones. */
  method NameDraw(qb: QuboBuilder, v0: Variables, d: Draw, ws: seq<Window>) returns (v: Variables)
    requires qb.Contents() == EmptyForm(|v0.symbols|)
    modifies qb
    ensures v == NameZ(NameXs(v0, d, ws), d)
    ensures qb.Contents() == EmptyForm(|v.symbols|)
  {
    var symbols, pruned := v0.symbols, v0.pruned;
    var xBit: map<string, nat> := v0.xBit;
    for j := 0 to |ws|
      invariant Variables(symbols, pruned, xBit, v0.zBit) == NameXs(v0, d, ws[..j])
      invariant qb.Contents() == EmptyForm(|symbols|)
    {
      var w := ws[j];
      assert Front(ws[..j + 1]) == ws[..j];
      if w.id !in d.windowEligibility {
        pruned := pruned + [Pruned(d.id, w.id, WindowNotEligible)];
      } else if d.amountMinor > w.liquidityCapMinor {
        pruned := pruned + [Pruned(d.id, w.id, AmountExceedsWindowCap)];
      } else {
        var index := qb.AddBit();
        symbols := symbols + [XSymbol(d.id, w.id)];
        xBit := xBit[BitKey(d.id, w.id) := index];
      }
    }
    assert ws[..|ws|] == ws;
    var index := qb.AddBit();
    v := Variables(symbols + [ZSymbol(d.id)], pruned, xBit, v0.zBit[d.id := index]);
  }

  method NameBits(qb: QuboBuilder, draws: seq<Draw>, ws: seq<Window>) returns (v: Variables)
    requires qb.Contents() == EmptyForm(0)
    modifies qb
    ensures v == NameVariables(draws, ws)
    ensures qb.Contents() == EmptyForm(|v.symbols|)
  {
    v := NO_VARIABLES;
    for i := 0 to |draws|
      invariant v == NameVariables(draws[..i], ws)
      invariant qb.Contents() == EmptyForm(|v.symbols|)
    {
      assert Front(draws[..i + 1]) == draws[..i];
      v := NameDraw(qb, v, draws[i], ws);
    }
    assert draws[..|draws|] == draws;
  }

  method AddDrawCosts(qb: QuboBuilder, v: Variables, d: Draw, ws: seq<Window>) returns (delta: int)
    requires BitsBelow(v, |qb.diag|) && d.id in v.zBit
    modifies qb
    ensures qb.Contents() == Apply(old(qb.Contents()), DrawSteps(v, d, ws)) && |qb.diag| == |old(qb.diag)|
    ensures delta == StepsWeight(DrawSteps(v, d, ws))
  {
    hide PlacementCost, BitKey, Apply, StepsWeight, StepBits;
    delta := 0;
    ghost var f := qb.Contents();
    NothingApplied(f);
    for j := 0 to |ws|
      invariant |qb.diag| == |f.diag|
      invariant qb.Contents() == Apply(f, PlacementSteps(v, d, ws[..j]))
      invariant delta == StepsWeight(PlacementSteps(v, d, ws[..j]))
    {
      var w := ws[j];
      assert Front(ws[..j + 1]) == ws[..j];
      ghost var done := PlacementSteps(v, d, ws[..j]);
      if HasX(v, d.id, w.id) {
        var coef := PlacementCost(d, w.id);
        qb.AddLinear(XBit(v, d.id, w.id), coef);
        delta := delta + Abs(coef);
        ApplyMore(f, done, Linear(XBit(v, d.id, w.id), coef));
      } else {
        assert PlacementSteps(v, d, ws[..j + 1]) == done;
      }
    }
    assert ws[..|ws|] == ws;
    qb.AddLinear(v.zBit[d.id], d.deferralCost);
    delta := delta + Abs(d.deferralCost);
    ApplyMore(f, PlacementSteps(v, d, ws), Linear(v.zBit[d.id], d.deferralCost));
  }

  method AddObjective(qb: QuboBuilder, v: Variables, draws: seq<Draw>, ws: seq<Window>) returns (delta: int)
    requires BitsBelow(v, |qb.diag|) && Named(v, draws)
    modifies qb
    ensures qb.Contents() == Apply(old(qb.Contents()), ObjectiveSteps(v, draws, ws)) && |qb.diag| == |old(qb.diag)|
    ensures delta == StepsWeight(ObjectiveSteps(v, draws, ws))
  {
    delta := 0;
    ghost var f := qb.Contents();
    for i := 0 to |draws|
      invariant |qb.diag| == |f.diag|
      invariant qb.Contents() == Apply(f, ObjectiveSteps(v, draws[..i], ws))
      invariant delta == StepsWeight(ObjectiveSteps(v, draws[..i], ws))
    {
      assert Front(draws[..i + 1]) == draws[..i];
      var more := AddDrawCosts(qb, v, draws[i], ws);
      delta := delta + more;
      ghost var done, steps := ObjectiveSteps(v, draws[..i], ws), DrawSteps(v, draws[i], ws);
      ApplyConcat(f, done, steps);
      StepsWeightConcat(done, steps);
    }
    assert draws[..|draws|] == draws;
  }

  method AddCrowding(qb: QuboBuilder, v: Variables, c: Concentration, ws: seq<Window>) returns (delta: int)
    requires BitsBelow(v, |qb.diag|) && c.weight >= 0
    modifies qb
    ensures qb.Contents() == Apply(old(qb.Contents()), CrowdingSteps(v, c, ws)) && |qb.diag| == |old(qb.diag)|
    ensures delta == StepsWeight(CrowdingSteps(v, c, ws))
  {
    delta := 0;
    ghost var f := qb.Contents();
    for j := 0 to |ws|
      invariant |qb.diag| == |f.diag|
      invariant qb.Contents() == Apply(f, CrowdingSteps(v, c, ws[..j]))
      invariant delta == StepsWeight(CrowdingSteps(v, c, ws[..j]))
    {
      var w := ws[j];
      assert Front(ws[..j + 1]) == ws[..j];
      ghost var done := CrowdingSteps(v, c, ws[..j]);
      if HasX(v, c.left, w.id) && HasX(v, c.right, w.id) {
        var step := Pair(XBit(v, c.left, w.id), XBit(v, c.right, w.id), c.weight);
        qb.AddPair(step.p, step.q, step.w);
        delta := delta + c.weight;
        ApplyMore(f, done, step);
      } else {
        assert CrowdingSteps(v, c, ws[..j + 1]) == done;
      }
    }
    assert ws[..|ws|] == ws;
  }

  method AddConcentration(qb: QuboBuilder, v: Variables, cs: seq<Concentration>, ws: seq<Window>) returns (delta: int)
    requires BitsBelow(v, |qb.diag|) && forall i :: 0 <= i < |cs| ==> cs[i].weight >= 0
    modifies qb
    ensures qb.Contents() == Apply(old(qb.Contents()), ConcentrationSteps(v, cs, ws)) && |qb.diag| == |old(qb.diag)|
    ensures delta == StepsWeight(ConcentrationSteps(v, cs, ws))
  {
    delta := 0;
    ghost var f := qb.Contents();
    for i := 0 to |cs|
      invariant |qb.diag| == |f.diag|
      invariant qb.Contents() == Apply(f, ConcentrationSteps(v, cs[..i], ws))
      invariant delta == StepsWeight(ConcentrationSteps(v, cs[..i], ws))
    {
      assert Front(cs[..i + 1]) == cs[..i];
      ghost var done := ConcentrationSteps(v, cs[..i], ws);
      if cs[i].weight == 0 {
        assert ConcentrationSteps(v, cs[..i + 1], ws) == done;
        continue;
      }
      var more := AddCrowding(qb, v, cs[i], ws);
      delta := delta + more;
      ApplyConcat(f, done, CrowdingSteps(v, cs[i], ws));
      StepsWeightConcat(done, CrowdingSteps(v, cs[i], ws));
    }
    assert cs[..|cs|] == cs;
  }

  method CollectDrawBits(v: Variables, d: Draw, ws: seq<Window>) returns (bits: seq<nat>)
    requires d.id in v.zBit
    ensures bits == DrawBits(v, d, ws)
  {
    bits := [];
    for j := 0 to |ws|
      invariant bits == WindowBits(v, d, ws[..j])
    {
      assert Front(ws[..j + 1]) == ws[..j];
      if HasX(v, d.id, ws[j].id) {
        bits := bits + [XBit(v, d.id, ws[j].id)];
      }
    }
    assert ws[..|ws|] == ws;
    bits := bits + [v.zBit[d.id]];
  }

  method AddCardinality(qb: QuboBuilder, v: Variables, draws: seq<Draw>, ws: seq<Window>, P: int) returns (cs: seq<Constraint>)
    requires BitsBelow(v, |qb.diag|) && Named(v, draws)
    modifies qb
    ensures qb.Contents() == Apply(old(qb.Contents()), CardinalitySteps(v, draws, ws, P)) && |qb.diag| == |old(qb.diag)|
    ensures cs == CardinalityConstraints(v, draws, ws, P)
  {
    cs := [];
    ghost var f := qb.Contents();
    for i := 0 to |draws|
      invariant |qb.diag| == |f.diag|
      invariant qb.Contents() == Apply(f, CardinalitySteps(v, draws[..i], ws, P))
      invariant cs == CardinalityConstraints(v, draws[..i], ws, P)
    {
      var d := draws[i];
      assert Front(draws[..i + 1]) == draws[..i];
      var bits := CollectDrawBits(v, d, ws);
      DrawBitsBelow(v, d, ws, |qb.diag|);
      ApplyConcat(f, CardinalitySteps(v, draws[..i], ws, P), SquareSteps(UnitTerms(bits), 1, P));
      qb.AddSquaredLinear(UnitTerms(bits), 1, P);
      cs := cs + [Constraint("card[" + d.id + "]", Cardinality, P, 0, 1, BitSet(bits))];
    }
    assert draws[..|draws|] == draws;
  }

  method AddForbiddenWith(qb: QuboBuilder, v: Variables, pr: Precedence, ws: seq<Window>, a: nat, P: int) returns (bits: set<nat>)
    requires BitsBelow(v, |qb.diag|) && a < |ws| && HasX(v, pr.after, ws[a].id)
    modifies qb
    ensures qb.Contents() == Apply(old(qb.Contents()), ForbiddenWith(v, pr, ws, a, |ws|, P)) && |qb.diag| == |old(qb.diag)|
    ensures bits == StepBits(ForbiddenWith(v, pr, ws, a, |ws|, P))
  {
    bits := {};
    ghost var f := qb.Contents();
    var pa := XBit(v, pr.after, ws[a].id);
    for k := 0 to |ws|
      invariant |qb.diag| == |f.diag|
      invariant qb.Contents() == Apply(f, ForbiddenWith(v, pr, ws, a, k, P))
      invariant bits == StepBits(ForbiddenWith(v, pr, ws, a, k, P))
    {
      ghost var done := ForbiddenWith(v, pr, ws, a, k, P);
      if HasX(v, pr.before, ws[k].id) && a <= k {
        var pb := XBit(v, pr.before, ws[k].id);
        qb.AddPair(pa, pb, P);
        bits := bits + {pa, pb};
        ApplyMore(f, done, Pair(pa, pb, P));
        assert StepBits([Pair(pa, pb, P)]) == {pa, pb} by { assert Front([Pair(pa, pb, P)]) == []; }
      } else {
        assert ForbiddenWith(v, pr, ws, a, k + 1, P) == done;
      }
    }
  }

  method AddForbidden(qb: QuboBuilder, v: Variables, pr: Precedence, ws: seq<Window>, P: int) returns (bits: set<nat>)
    requires BitsBelow(v, |qb.diag|)
    modifies qb
    ensures qb.Contents() == Apply(old(qb.Contents()), ForbiddenSteps(v, pr, ws, |ws|, P)) && |qb.diag| == |old(qb.diag)|
    ensures bits == StepBits(ForbiddenSteps(v, pr, ws, |ws|, P))
  {
    bits := {};
    ghost var f := qb.Contents();
    for a := 0 to |ws|
      invariant |qb.diag| == |f.diag|
      invariant qb.Contents() == Apply(f, ForbiddenSteps(v, pr, ws, a, P))
      invariant bits == StepBits(ForbiddenSteps(v, pr, ws, a, P))
    {
      ghost var done := ForbiddenSteps(v, pr, ws, a, P);
      if HasX(v, pr.after, ws[a].id) {
        var more := AddForbiddenWith(qb, v, pr, ws, a, P);
        bits := bits + more;
        ApplyConcat(f, done, ForbiddenWith(v, pr, ws, a, |ws|, P));
        StepsWeightConcat(done, ForbiddenWith(v, pr, ws, a, |ws|, P));
      } else {
        assert ForbiddenSteps(v, pr, ws, a + 1, P) == done;
      }
    }
  }

  method AddPrecedence(qb: QuboBuilder, v: Variables, ps: seq<Precedence>, ws: seq<Window>, P: int) returns (cs: seq<Constraint>)
    requires BitsBelow(v, |qb.diag|)
    modifies qb
    ensures qb.Contents() == Apply(old(qb.Contents()), PrecedenceSteps(v, ps, ws, P)) && |qb.diag| == |old(qb.diag)|
    ensures cs == PrecedenceConstraints(v, ps, ws, P)
  {
    cs := [];
    ghost var f := qb.Contents();
    for i := 0 to |ps|
      invariant |qb.diag| == |f.diag|
      invariant qb.Contents() == Apply(f, PrecedenceSteps(v, ps[..i], ws, P))
      invariant cs == PrecedenceConstraints(v, ps[..i], ws, P)
    {
      assert Front(ps[..i + 1]) == ps[..i];
      var bits := AddForbidden(qb, v, ps[i], ws, P);
      ApplyConcat(f, PrecedenceSteps(v, ps[..i], ws, P), ForbiddenSteps(v, ps[i], ws, |ws|, P));
      if bits != {} {
        cs := cs + [Constraint("prec[" + ps[i].before + "<" + ps[i].after + "]", PrecedenceKind, P, 0, 1, bits)];
      }
    }
    assert ps[..|ps|] == ps;
  }

  method CollectMembers(v: Variables, draws: seq<Draw>, window: string) returns (ms: seq<Member>, total: int)
    ensures ms == Members(v, draws, window) && total == MembersTotal(ms)
  {
    ms, total := [], 0;
    for i := 0 to |draws|
      invariant ms == Members(v, draws[..i], window) && total == MembersTotal(ms)
    {
      assert Front(draws[..i + 1]) == draws[..i];
      if HasX(v, draws[i].id, window) {
        ghost var before := ms;
        ms := ms + [Member(draws[i].amountMinor, XBit(v, draws[i].id, window))];
        total := total + draws[i].amountMinor;
        assert Front(ms) == before;
      }
    }
    assert draws[..|draws|] == draws;
  }

  lemma OverCapRowGrows(ms: seq<Member>, i: nat, j: nat, cap: int, P: int)
    requires i < j < |ms|
    ensures OverCapRow(ms[i], ms[i + 1..j + 1], cap, P)
         == OverCapRow(ms[i], ms[i + 1..j], cap, P) + if ms[i].amount + ms[j].amount > cap then [Pair(ms[i].bit, ms[j].bit, P)] else []
  {
    assert Front(ms[i + 1..j + 1]) == ms[i + 1..j];
  }

  method AddOverCapRow(qb: QuboBuilder, ms: seq<Member>, i: nat, cap: int, P: int) returns (bits: set<nat>)
    requires i < |ms| && forall k :: 0 <= k < |ms| ==> ms[k].bit < |qb.diag|
    modifies qb
    ensures qb.Contents() == Apply(old(qb.Contents()), OverCapRow(ms[i], ms[i + 1..], cap, P)) && |qb.diag| == |old(qb.diag)|
    ensures bits == StepBits(OverCapRow(ms[i], ms[i + 1..], cap, P))
  {
    bits := {};
    ghost var f := qb.Contents();
    NothingApplied(f);
    assert ms[i + 1..i + 1] == [] && OverCapRow(ms[i], [], cap, P) == [];
    hide Apply, StepsWeight, StepBits, OverCapRow;
    for j := i + 1 to |ms|
      invariant |qb.diag| == |f.diag|
      invariant qb.Contents() == Apply(f, OverCapRow(ms[i], ms[i + 1..j], cap, P))
      invariant bits == StepBits(OverCapRow(ms[i], ms[i + 1..j], cap, P))
    {
      ghost var done := OverCapRow(ms[i], ms[i + 1..j], cap, P);
      OverCapRowGrows(ms, i, j, cap, P);
      if ms[i].amount + ms[j].amount > cap {
        var step := Pair(ms[i].bit, ms[j].bit, P);
        qb.AddPair(step.p, step.q, step.w);
        bits := bits + {step.p, step.q};
        ApplyMore(f, done, step);
        OneStepBits(step);
      } else {
        assert done + [] == done;
      }
    }
    assert ms[i + 1..|ms|] == ms[i + 1..];
  }

  method AddOverCapPairs(qb: QuboBuilder, ms: seq<Member>, cap: int, P: int) returns (bits: set<nat>)
    requires forall k :: 0 <= k < |ms| ==> ms[k].bit < |qb.diag|
    modifies qb
    ensures qb.Contents() == Apply(old(qb.Contents()), OverCapPairs(ms, |ms|, cap, P)) && |qb.diag| == |old(qb.diag)|
    ensures bits == StepBits(OverCapPairs(ms, |ms|, cap, P))
  {
    bits := {};
    ghost var f := qb.Contents();
    for i := 0 to |ms|
      invariant |qb.diag| == |f.diag|
      invariant qb.Contents() == Apply(f, OverCapPairs(ms, i, cap, P))
      invariant bits == StepBits(OverCapPairs(ms, i, cap, P))
    {
      var more := AddOverCapRow(qb, ms, i, cap, P);
      bits := bits + more;
      ApplyConcat(f, OverCapPairs(ms, i, cap, P), OverCapRow(ms[i], ms[i + 1..], cap, P));
      StepsWeightConcat(OverCapPairs(ms, i, cap, P), OverCapRow(ms[i], ms[i + 1..], cap, P));
    }
  }

  method ComputeUnit(ms: seq<Member>, cap: nat) returns (unit: nat)
    requires PositiveMembers(ms)
    ensures unit == Unit(NatAmounts(ms), cap)
  {
    var amounts := NatAmounts(ms);
    unit := cap;
    for i := 0 to |ms|
      invariant unit == Unit(amounts[..i], cap)
    {
      assert Front(amounts[..i + 1]) == amounts[..i];
      unit := ComputeGcd(unit, ms[i].amount);
    }
    assert amounts[..|ms|] == amounts;
  }

  /** Creates the slack bits of one window and appends their terms and symbols. */
  method AddSlackBits(qb: QuboBuilder, symbols0: seq<Symbol>, window: string, width: nat)
    returns (symbols: seq<Symbol>, terms: seq<Term>)
    requires |symbols0| == |qb.diag|
    modifies qb
    ensures qb.Contents() == Grow(old(qb.Contents()), width)
    ensures symbols == symbols0 + SlackSymbols(window, width) && terms == SlackTerms(|symbols0|, width)
  {
    symbols, terms := symbols0, [];
    for b := 0 to width
      invariant qb.Contents() == Grow(old(qb.Contents()), b) && |symbols| == |qb.diag|
      invariant symbols == symbols0 + SlackSymbols(window, b) && terms == SlackTerms(|symbols0|, b)
    {
      var s := qb.AddBit();
      symbols := symbols + [SlackSymbol(window, b)];
      terms := terms + [Term(s, Pow2(b))];
    }
  }

  /** One round of the budget loop: no coupling, pair couplings, or slack. */
  method AddBudget(qb: QuboBuilder, ghost st: BudgetState, symbols0: seq<Symbol>, constraints0: seq<Constraint>,
                   encodings0: map<string, Encoding>, units0: map<string, nat>, refusals0: seq<Refusal>,
                   ms: seq<Member>, total: int, w: Window, policy: PenaltyPolicy)
    returns (symbols: seq<Symbol>, constraints: seq<Constraint>,
             encodings: map<string, Encoding>, units: map<string, nat>, refusals: seq<Refusal>)
    requires PositiveMembers(ms) && w.liquidityCapMinor > 0 && total == MembersTotal(ms)
    requires st == BudgetState(qb.Contents(), symbols0, constraints0, encodings0, units0, refusals0)
    requires |symbols0| == |qb.diag| && forall k :: 0 <= k < |ms| ==> ms[k].bit < |qb.diag|
    modifies qb
    ensures BudgetState(qb.Contents(), symbols, constraints, encodings, units, refusals) == BudgetStep(st, ms, w, policy)
    ensures |symbols| == |qb.diag| >= |old(qb.diag)|
  {
    symbols, constraints, encodings, units, refusals := symbols0, constraints0, encodings0, units0, refusals0;
    var cap := w.liquidityCapMinor;
    if total <= cap {
      encodings := encodings[w.id := NoBudget];
      return;
    }
    var verdict := PairPruneIsExact(Amounts(ms), cap);
    if verdict == Exact {
      encodings := encodings[w.id := PairPruned];
      var bits := AddOverCapPairs(qb, ms, cap, policy.budget);
      constraints := constraints + [Constraint("budget[" + w.id + "]", BudgetPair, policy.budget, 0, 1, bits)];
      return;
    }
    var unit := ComputeUnit(ms, cap);
    UnitDivides(NatAmounts(ms), cap);
    var capUnits := cap / unit;
    var width := BitLength(capUnits);
    if width > policy.maxSlackBits {
      refusals := refusals + [SlackBitsExceedPolicy(w.id)];
      return;
    }
    encodings := encodings[w.id := SlackEncoded];
    units := units[w.id := unit];
    var slack;
    symbols, slack := AddSlackBits(qb, symbols, w.id, width);
    var terms := MemberTerms(ms, unit) + slack;
    SlackTermsBelow(|symbols0|, width);
    qb.AddSquaredLinear(terms, capUnits, policy.budget);
    constraints := constraints + [Constraint("budget[" + w.id + "]", BudgetSlack, policy.budget, 0, 1, TermBits(terms))];
  }

  method AddBudgets(qb: QuboBuilder, ghost st0: BudgetState, v: Variables, constraints0: seq<Constraint>,
                    draws: seq<Draw>, ws: seq<Window>, policy: PenaltyPolicy)
    returns (symbols: seq<Symbol>, constraints: seq<Constraint>,
             encodings: map<string, Encoding>, units: map<string, nat>, refusals: seq<Refusal>)
    requires PositiveAmounts(draws) && PositiveCaps(ws)
    requires st0 == BudgetState(qb.Contents(), v.symbols, constraints0, map[], map[], [])
    requires |v.symbols| == |qb.diag| && BitsBelow(v, |qb.diag|)
    modifies qb
    ensures BudgetState(qb.Contents(), symbols, constraints, encodings, units, refusals) == Budgets(st0, v, draws, ws, policy)
  {
    symbols, constraints, encodings, units, refusals := v.symbols, constraints0, map[], map[], [];
    for t := 0 to |ws|
      invariant |symbols| == |qb.diag| && BitsBelow(v, |qb.diag|)
      invariant BudgetState(qb.Contents(), symbols, constraints, encodings, units, refusals)
             == Budgets(st0, v, draws, ws[..t], policy)
    {
      assert Front(ws[..t + 1]) == ws[..t];
      var ms, total := CollectMembers(v, draws, ws[t].id);
      MembersPositive(v, draws, ws[t].id);
      MembersBelow(v, draws, ws[t].id, |qb.diag|);
      ghost var st := Budgets(st0, v, draws, ws[..t], policy);
      symbols, constraints, encodings, units, refusals :=
        AddBudget(qb, st, symbols, constraints, encodings, units, refusals, ms, total, ws[t], policy);
    }
    assert ws[..|ws|] == ws;
  }

  method CheckFloor(cs: seq<Constraint>, deltaEMax: int) returns (refusals: seq<Refusal>)
    ensures refusals == FloorRefusals(cs, deltaEMax)
  {
    refusals := [];
    for i := 0 to |cs|
      invariant refusals == FloorRefusals(cs[..i], deltaEMax)
    {
      assert Front(cs[..i + 1]) == cs[..i];
      if !(cs[i].penalty > deltaEMax) && PenaltyBelowFloor(cs[i].kind) !in refusals {
        refusals := refusals + [PenaltyBelowFloor(cs[i].kind)];
      }
    }
    assert cs[..|cs|] == cs;
  }

  /** z = 1 - 2x: fields from the diagonal, then each coupling spread over its two fields, J and the offset. */
  method AssembleIsing(q: Qubo) returns (m: Ising)
    requires PlacesWithin(q.offdiag, |q.diag|)
    ensures m == IsingOf(q)
  {
    var h := seq(|q.diag|, i requires 0 <= i < |q.diag| => -(q.diag[i] as real) / 2.0);
    var offset := q.e0 as real;
    var half := 0.0;
    for i := 0 to |q.diag|
      invariant half == HalfSum(q.diag[..i])
    {
      assert Front(q.diag[..i + 1]) == q.diag[..i];
      half := half + q.diag[i] as real / 2.0;
    }
    assert q.diag[..|q.diag|] == q.diag;
    offset := offset + half;
    var J: seq<SymEntry> := [];
    assert h == IsingStart(q.diag, q.e0).h;
    for k := 0 to |q.offdiag|
      invariant |h| == |q.diag|
      invariant Ising(h, J, offset) == IsingOfPrefix(q, k)
    {
      var e := q.offdiag[k];
      h := h[e.i := h[e.i] - e.value / 2.0];
      h := h[e.j := h[e.j] - e.value / 2.0];
      J := J + [SymEntry(e.i, e.j, e.value / 2.0)];
      offset := offset + e.value / 2.0;
    }
    m := Ising(h, J, offset);
  }

  lemma SortedWeights(s: FrozenScenario, policy: PenaltyPolicy)
    requires ValidScenario(s, policy)
    ensures forall i :: 0 <= i < |SortedConcentration(s)| ==> SortedConcentration(s)[i].weight >= 0
  {
    SortKeepsElements(s.concentrationPairs, ConcentrationKey);
    var cs := SortedConcentration(s);
    forall i | 0 <= i < |cs| ensures cs[i].weight >= 0 {
      assert cs[i] in cs;
    }
  }

  /** Objective, concentration, cardinality and precedence: everything that needs no slack bit. */
  method AddTerms(qb: QuboBuilder, v: Variables, draws: seq<Draw>, s: FrozenScenario, policy: PenaltyPolicy)
    returns (constraints: seq<Constraint>, deltaEMax: int)
    requires qb.Contents() == EmptyForm(|v.symbols|) && BitsBelow(v, |v.symbols|) && Named(v, draws)
    requires forall i :: 0 <= i < |SortedConcentration(s)| ==> SortedConcentration(s)[i].weight >= 0
    modifies qb
    ensures BudgetState(qb.Contents(), v.symbols, constraints, map[], map[], []) == BeforeBudgets(v, draws, s, policy)
    ensures deltaEMax == DeltaEMax(v, draws, s) && |qb.diag| == |v.symbols|
  {
    var ws := s.windows;
    var precedence, concentration := SortedPrecedence(s), SortedConcentration(s);
    ghost var f := EmptyForm(|v.symbols|);
    var objective := AddObjective(qb, v, draws, ws);
    var crowding := AddConcentration(qb, v, concentration, ws);
    ApplyConcat(f, ObjectiveSteps(v, draws, ws), ConcentrationSteps(v, concentration, ws));
    StepsWeightConcat(ObjectiveSteps(v, draws, ws), ConcentrationSteps(v, concentration, ws));
    deltaEMax := objective + crowding;
    var cardinality := AddCardinality(qb, v, draws, ws, policy.cardinality);
    var order := AddPrecedence(qb, v, precedence, ws, policy.precedence);
    constraints := cardinality + order;
  }

  /** From here on the scenario and the policy have passed the gate. */
  method CompileValid(s: FrozenScenario, policy: PenaltyPolicy) returns (r: CompileResult)
    requires ValidPolicy(policy) && ValidScenario(s, policy)
    ensures PositiveAmounts(s.draws) && PositiveCaps(s.windows)
    ensures r == Finish(s, AfterBudgets(s, policy), NameVariables(SortedDraws(s), s.windows).pruned, DeltaOf(s))
  {
    ValidIsPositive(s, policy);
    SortedDrawsPositive(s);
    SortedWeights(s, policy);
    var draws := SortedDraws(s);
    var qb := new QuboBuilder();
    var v := NameBits(qb, draws, s.windows);
    EveryDrawNamed(draws, s.windows);
    NamedBitsBelow(draws, s.windows);
    var constraints, deltaEMax := AddTerms(qb, v, draws, s, policy);
    ghost var st := BeforeBudgets(v, draws, s, policy);
    var symbols, all, encodings, units, refusals := AddBudgets(qb, st, v, constraints, draws, s.windows, policy);
    FinalFormWellFormed(s, policy);
    ghost var final := AfterBudgets(s, policy);
    assert BudgetState(qb.Contents(), symbols, all, encodings, units, refusals) == final;
    if refusals != [] {
      return RequiresRemodeling(refusals);
    }
    var floor := CheckFloor(all, deltaEMax);
    if floor != [] {
      return RequiresRemodeling(floor);
    }
    r := Emit(qb, s, symbols, all, v.pruned, units, encodings, deltaEMax);
  }

  method Emit(qb: QuboBuilder, s: FrozenScenario, symbols: seq<Symbol>, constraints: seq<Constraint>, pruned: seq<Pruned>,
              units: map<string, nat>, encodings: map<string, Encoding>, deltaEMax: int)
    returns (r: CompileResult)
    requires WellFormed(qb.Contents()) && FloorRefusals(constraints, deltaEMax) == []
    ensures r == Finish(s, BudgetState(qb.Contents(), symbols, constraints, encodings, units, []), pruned, deltaEMax)
  {
    AssembledPlaces(qb.Contents());
    var offdiag := qb.Offdiagonal();
    var qubo := Qubo(qb.diag, offdiag, qb.E0);
    var ising := AssembleIsing(qubo);
    if !InExactRange(qubo, ising) {
      return RequiresRemodeling([NumericRange]);
    }
    r := Compiled(QuboArtifact(s.header, symbols, qubo, ising, StampDelta(constraints, deltaEMax),
                               pruned, units, encodings, deltaEMax));
  }

  method CompileQubo(s: FrozenScenario, policy: PenaltyPolicy) returns (r: CompileResult)
    ensures r == Compile(s, policy)
  {
    var policyRefusals := ValidatePenaltyPolicy(policy);
    var scenarioRefusals := ValidateScenario(s, policy);
    var refusals := policyRefusals + scenarioRefusals;
    if refusals != [] {
      return RequiresRemodeling(refusals);
    }
    GatePassesExactlyValid(s, policy);
    r := CompileValid(s, policy);
  }
}
