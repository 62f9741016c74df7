/** What each penalty term says about the bits: zero exactly when its constraint holds, at least P otherwise. */
module PenaltyTerms {
  import opened Sums
  import opened QuadraticForm
  import opened PairPruning
  import opened Slack
  import opened Scenario
  import opened CompilerSpec
  import opened Decomposition

  /** Zero, or at least one whole penalty. */
  predicate PenaltyLike(e: int, P: int) {
    e == 0 || e >= P
  }

  lemma SquarePenalty(P: int, v: int)
    requires P > 0
    ensures PenaltyLike(P * Square(v), P)
    ensures P * Square(v) == 0 <==> v == 0
  {
    if v != 0 {
      assert Square(v) >= 1 by {
        if v > 0 { MulOrder(1, v, v); } else { MulOrder(1, -v, -v); }
      }
      MulOrder(1, Square(v), P);
    }
  }

  /** Draw `draw` is placed in `window` by the bit its key finds. */
  predicate Placed(v: Variables, x: Bits, draw: string, window: string) {
    HasX(v, draw, window) && On(x, XBit(v, draw, window))
  }

  // ---------------------------------------------------------------------------
  // Cardinality
  // ---------------------------------------------------------------------------

  function PlacedCount(v: Variables, x: Bits, draw: string, ws: seq<Window>): nat {
    if ws == [] then 0 else PlacedCount(v, x, draw, Front(ws)) + if Placed(v, x, draw, Last(ws).id) then 1 else 0
  }

  function CountOn(bits: seq<nat>, x: Bits): nat {
    if bits == [] then 0 else CountOn(Front(bits), x) + if On(x, Last(bits)) then 1 else 0
  }

  lemma {:induction false} UnitLoad(bits: seq<nat>, x: Bits)
    ensures Load(UnitTerms(bits), x) == CountOn(bits, x)
  {
    if bits != [] {
      UnitLoad(Front(bits), x);
      assert Front(UnitTerms(bits)) == UnitTerms(Front(bits));
    }
  }

  lemma {:induction false} WindowBitsCount(v: Variables, x: Bits, d: Draw, ws: seq<Window>)
    ensures CountOn(WindowBits(v, d, ws), x) == PlacedCount(v, x, d.id, ws)
  {
    if ws != [] {
      WindowBitsCount(v, x, d, Front(ws));
      var rest := WindowBits(v, d, Front(ws));
      if HasX(v, d.id, Last(ws).id) {
        assert Front(WindowBits(v, d, ws)) == rest;
      } else {
        assert WindowBits(v, d, ws) == rest;
      }
    }
  }

  /** How many of a draw's slots are switched on. */
  function SlotCount(v: Variables, x: Bits, d: Draw, ws: seq<Window>): nat {
    PlacedCount(v, x, d.id, ws) + if d.id in v.zBit && On(x, v.zBit[d.id]) then 1 else 0
  }

  lemma CardinalityLoad(v: Variables, x: Bits, d: Draw, ws: seq<Window>)
    requires d.id in v.zBit
    ensures Load(UnitTerms(DrawBits(v, d, ws)), x) == SlotCount(v, x, d, ws)
  {
    UnitLoad(DrawBits(v, d, ws), x);
    WindowBitsCount(v, x, d, ws);
    assert Front(DrawBits(v, d, ws)) == WindowBits(v, d, ws);
  }

  /** The cardinality penalty is zero exactly when every draw has exactly one slot. */
  lemma {:induction false} CardinalityMeaning(v: Variables, draws: seq<Draw>, ws: seq<Window>, P: int, x: Bits)
    requires Named(v, draws) && P > 0
    ensures PenaltyLike(StepsEnergy(CardinalitySteps(v, draws, ws, P), x), P)
    ensures StepsEnergy(CardinalitySteps(v, draws, ws, P), x) == 0
       <==> forall i :: 0 <= i < |draws| ==> SlotCount(v, x, draws[i], ws) == 1
  {
    hide Square, SquareSteps, SlotCount, Load;
    if draws != [] {
      var front, d := Front(draws), Last(draws);
      CardinalityMeaning(v, front, ws, P, x);
      var terms := UnitTerms(DrawBits(v, d, ws));
      StepsEnergyConcat(CardinalitySteps(v, front, ws, P), SquareSteps(terms, 1, P), x);
      SquareStepsEnergy(terms, 1, P, x);
      CardinalityLoad(v, x, d, ws);
      SquarePenalty(P, Load(terms, x) - 1);
      assert forall i :: 0 <= i < |front| ==> draws[i] == front[i];
    }
  }

  lemma {:induction false} PlacedCountZero(v: Variables, x: Bits, draw: string, ws: seq<Window>)
    ensures PlacedCount(v, x, draw, ws) == 0 <==> forall j :: 0 <= j < |ws| ==> !Placed(v, x, draw, ws[j].id)
  {
    if ws != [] {
      PlacedCountZero(v, x, draw, Front(ws));
      assert forall j :: 0 <= j < |ws| - 1 ==> ws[j] == Front(ws)[j];
    }
  }

  lemma {:induction false} PlacedCountOne(v: Variables, x: Bits, draw: string, ws: seq<Window>) returns (k: nat)
    requires PlacedCount(v, x, draw, ws) == 1
    ensures k < |ws| && forall j :: 0 <= j < |ws| ==> (Placed(v, x, draw, ws[j].id) <==> j == k)
  {
    PlacedCountZero(v, x, draw, Front(ws));
    assert forall j :: 0 <= j < |ws| - 1 ==> ws[j] == Front(ws)[j];
    if Placed(v, x, draw, Last(ws).id) {
      k := |ws| - 1;
    } else {
      k := PlacedCountOne(v, x, draw, Front(ws));
    }
  }

  lemma {:induction false} PlacedCountOfOne(v: Variables, x: Bits, draw: string, ws: seq<Window>, k: nat)
    requires k < |ws| && forall j :: 0 <= j < |ws| ==> (Placed(v, x, draw, ws[j].id) <==> j == k)
    ensures PlacedCount(v, x, draw, ws) == 1
  {
    assert forall j :: 0 <= j < |ws| - 1 ==> ws[j] == Front(ws)[j];
    if k == |ws| - 1 {
      PlacedCountZero(v, x, draw, Front(ws));
    } else {
      PlacedCountOfOne(v, x, draw, Front(ws), k);
    }
  }

  // ---------------------------------------------------------------------------
  // Precedence
  // ---------------------------------------------------------------------------

  ghost predicate NoInversionWith(v: Variables, x: Bits, pr: Precedence, ws: seq<Window>, a: nat, k: nat)
    requires a < |ws| && k <= |ws|
  {
    Placed(v, x, pr.after, ws[a].id) ==> forall b :: a <= b < k ==> !Placed(v, x, pr.before, ws[b].id)
  }

  lemma {:induction false} ForbiddenWithMeaning(v: Variables, pr: Precedence, ws: seq<Window>, a: nat, k: nat, P: int, x: Bits)
    requires P > 0 && a < |ws| && k <= |ws| && HasX(v, pr.after, ws[a].id)
    ensures PenaltyLike(StepsEnergy(ForbiddenWith(v, pr, ws, a, k, P), x), P)
    ensures StepsEnergy(ForbiddenWith(v, pr, ws, a, k, P), x) == 0 <==> NoInversionWith(v, x, pr, ws, a, k)
  {
    if k > 0 {
      ForbiddenWithMeaning(v, pr, ws, a, k - 1, P, x);
      var rest := ForbiddenWith(v, pr, ws, a, k - 1, P);
      if HasX(v, pr.before, ws[k - 1].id) && a <= k - 1 {
        var step := Pair(XBit(v, pr.after, ws[a].id), XBit(v, pr.before, ws[k - 1].id), P);
        StepsEnergyConcat(rest, [step], x);
        StepsEnergySingle(step, x);
      } else {
        assert ForbiddenWith(v, pr, ws, a, k, P) == rest;
      }
    }
  }

  ghost predicate NoInversion(v: Variables, x: Bits, pr: Precedence, ws: seq<Window>, A: nat)
    requires A <= |ws|
  {
    forall a :: 0 <= a < A ==> NoInversionWith(v, x, pr, ws, a, |ws|)
  }

  lemma {:induction false} ForbiddenMeaning(v: Variables, pr: Precedence, ws: seq<Window>, A: nat, P: int, x: Bits)
    requires P > 0 && A <= |ws|
    ensures PenaltyLike(StepsEnergy(ForbiddenSteps(v, pr, ws, A, P), x), P)
    ensures StepsEnergy(ForbiddenSteps(v, pr, ws, A, P), x) == 0 <==> NoInversion(v, x, pr, ws, A)
  {
    if A > 0 {
      ForbiddenMeaning(v, pr, ws, A - 1, P, x);
      var rest := ForbiddenSteps(v, pr, ws, A - 1, P);
      if HasX(v, pr.after, ws[A - 1].id) {
        ForbiddenWithMeaning(v, pr, ws, A - 1, |ws|, P, x);
        StepsEnergyConcat(rest, ForbiddenWith(v, pr, ws, A - 1, |ws|, P), x);
      } else {
        assert ForbiddenSteps(v, pr, ws, A, P) == rest;
      }
    }
  }

  /** The precedence penalty is zero exactly when no `after` sits at or before its `before`. */
  lemma {:induction false} PrecedenceMeaning(v: Variables, ps: seq<Precedence>, ws: seq<Window>, P: int, x: Bits)
    requires P > 0
    ensures PenaltyLike(StepsEnergy(PrecedenceSteps(v, ps, ws, P), x), P)
    ensures StepsEnergy(PrecedenceSteps(v, ps, ws, P), x) == 0
       <==> forall k :: 0 <= k < |ps| ==> NoInversion(v, x, ps[k], ws, |ws|)
  {
    if ps != [] {
      PrecedenceMeaning(v, Front(ps), ws, P, x);
      ForbiddenMeaning(v, Last(ps), ws, |ws|, P, x);
      StepsEnergyConcat(PrecedenceSteps(v, Front(ps), ws, P), ForbiddenSteps(v, Last(ps), ws, |ws|, P), x);
      assert forall k :: 0 <= k < |ps| - 1 ==> ps[k] == Front(ps)[k];
    }
  }

  // ---------------------------------------------------------------------------
  // Budget
  // ---------------------------------------------------------------------------

  /** Which members of a window are switched on. */
  function Selection(ms: seq<Member>, x: Bits): (sel: seq<bool>)
    ensures |sel| == |ms|
  {
    seq(|ms|, i requires 0 <= i < |ms| => On(x, ms[i].bit))
  }

  /** The `k` slack bits from bit `from` on. */
  function SlackBits(x: Bits, from: nat, k: nat): (s: seq<bool>)
    ensures |s| == k
  {
    seq(k, b requires 0 <= b < k => On(x, from + b))
  }

  ghost predicate RowFits(m: Member, ms: seq<Member>, cap: int, x: Bits) {
    On(x, m.bit) ==> forall j :: 0 <= j < |ms| && On(x, ms[j].bit) ==> m.amount + ms[j].amount <= cap
  }

  lemma {:induction false} OverCapRowMeaning(m: Member, ms: seq<Member>, cap: int, P: int, x: Bits)
    requires P > 0
    ensures PenaltyLike(StepsEnergy(OverCapRow(m, ms, cap, P), x), P)
    ensures StepsEnergy(OverCapRow(m, ms, cap, P), x) == 0 <==> RowFits(m, ms, cap, x)
  {
    if ms != [] {
      OverCapRowMeaning(m, Front(ms), cap, P, x);
      var rest := OverCapRow(m, Front(ms), cap, P);
      assert forall j :: 0 <= j < |ms| - 1 ==> ms[j] == Front(ms)[j];
      if m.amount + Last(ms).amount > cap {
        var step := Pair(m.bit, Last(ms).bit, P);
        StepsEnergyConcat(rest, [step], x);
        StepsEnergySingle(step, x);
      } else {
        assert OverCapRow(m, ms, cap, P) == rest;
      }
    }
  }

  lemma {:induction false} OverCapPairsMeaning(ms: seq<Member>, k: nat, cap: int, P: int, x: Bits)
    requires P > 0 && k <= |ms|
    ensures PenaltyLike(StepsEnergy(OverCapPairs(ms, k, cap, P), x), P)
    ensures StepsEnergy(OverCapPairs(ms, k, cap, P), x) == 0
       <==> forall i :: 0 <= i < k ==> RowFits(ms[i], ms[i + 1..], cap, x)
  {
    if k > 0 {
      OverCapPairsMeaning(ms, k - 1, cap, P, x);
      OverCapRowMeaning(ms[k - 1], ms[k..], cap, P, x);
      StepsEnergyConcat(OverCapPairs(ms, k - 1, cap, P), OverCapRow(ms[k - 1], ms[k..], cap, P), x);
    }
  }

  lemma RowsFitPairs(ms: seq<Member>, cap: int, x: Bits)
    ensures (forall i :: 0 <= i < |ms| ==> RowFits(ms[i], ms[i + 1..], cap, x))
       <==> SelectedPairsFit(Amounts(ms), cap, Selection(ms, x))
  {
    var am, sel := Amounts(ms), Selection(ms, x);
    if forall i :: 0 <= i < |ms| ==> RowFits(ms[i], ms[i + 1..], cap, x) {
      forall i, j | 0 <= i < j < |sel| && sel[i] && sel[j] ensures am[i] + am[j] <= cap {
        assert RowFits(ms[i], ms[i + 1..], cap, x);
        assert ms[i + 1..][j - i - 1] == ms[j];
      }
    }
    if SelectedPairsFit(am, cap, sel) {
      forall i | 0 <= i < |ms| ensures RowFits(ms[i], ms[i + 1..], cap, x) {
        var tail := ms[i + 1..];
        forall j | 0 <= j < |tail| && On(x, ms[i].bit) && On(x, tail[j].bit) ensures ms[i].amount + tail[j].amount <= cap {
          assert sel[i] && sel[i + 1 + j] && am[i] + am[i + 1 + j] <= cap;
        }
      }
    }
  }

  lemma {:induction false} SlackLoad(x: Bits, from: nat, k: nat)
    ensures Load(SlackTerms(from, k), x) == SlackValue(SlackBits(x, from, k))
  {
    if k > 0 {
      SlackLoad(x, from, k - 1);
      assert Front(SlackTerms(from, k)) == SlackTerms(from, k - 1);
      assert Front(SlackBits(x, from, k)) == SlackBits(x, from, k - 1);
    }
  }

  lemma {:induction false} MemberLoad(ms: seq<Member>, unit: nat, x: Bits)
    requires PositiveMembers(ms) && unit > 0
    ensures Load(MemberTerms(ms, unit), x) == SelectedTotal(Scaled(NatAmounts(ms), unit), Selection(ms, x))
  {
    if ms != [] {
      MemberLoad(Front(ms), unit, x);
      assert Front(MemberTerms(ms, unit)) == MemberTerms(Front(ms), unit);
      assert Front(Scaled(NatAmounts(ms), unit)) == Scaled(NatAmounts(Front(ms)), unit);
      assert Front(Selection(ms, x)) == Selection(Front(ms), x);
    }
  }

  lemma SlackResidual(ms: seq<Member>, cap: nat, from: nat, x: Bits)
    requires PositiveMembers(ms) && cap > 0
    ensures Unit(NatAmounts(ms), cap) > 0
    ensures Load(BudgetTerms(ms, cap, from), x) - cap / Unit(NatAmounts(ms), cap)
         == Residual(NatAmounts(ms), cap, Selection(ms, x), SlackBits(x, from, SlackWidth(NatAmounts(ms), cap)))
  {
    UnitDivides(NatAmounts(ms), cap);
    var unit, width := Unit(NatAmounts(ms), cap), SlackWidth(NatAmounts(ms), cap);
    LoadConcat(MemberTerms(ms, unit), SlackTerms(from, width), x);
    MemberLoad(ms, unit, x);
    SlackLoad(x, from, width);
  }

  /** The units, in full minor amounts, that a bitstring puts into the window of `ms`. */
  function SelectedLoad(ms: seq<Member>, x: Bits): int {
    SelectedTotal(Amounts(ms), Selection(ms, x))
  }

  lemma {:induction false} SelectedLoadBounds(ms: seq<Member>, x: Bits)
    requires PositiveMembers(ms)
    ensures 0 <= SelectedLoad(ms, x) <= MembersTotal(ms)
  {
    if ms != [] {
      SelectedLoadBounds(Front(ms), x);
      assert Front(Amounts(ms)) == Amounts(Front(ms));
      assert Front(Selection(ms, x)) == Selection(Front(ms), x);
      assert Last(ms).amount > 0;
    }
  }

  /** Slack, where the window has any, tops the selected load up to the cap. */
  ghost predicate SlackFills(ms: seq<Member>, cap: nat, from: nat, x: Bits)
    requires PositiveMembers(ms) && cap > 0
  {
    EncodingOf(ms, cap) == SlackEncoded ==>
      0 <= SelectedLoad(ms, x) <= cap &&
      SlackBits(x, from, SlackWidth(NatAmounts(ms), cap)) == FillingSlack(NatAmounts(ms), cap, Selection(ms, x))
  }

  /** The budget term of a window is zero exactly when its load fits the cap and its slack fills it. */
  lemma WindowMeaning(ms: seq<Member>, w: Window, from: nat, policy: PenaltyPolicy, x: Bits)
    requires PositiveMembers(ms) && w.liquidityCapMinor > 0 && policy.budget > 0
    requires forall i :: 0 <= i < |ms| ==> ms[i].amount <= w.liquidityCapMinor
    requires EncodingOf(ms, w.liquidityCapMinor) == SlackEncoded
         ==> SlackWidth(NatAmounts(ms), w.liquidityCapMinor) <= policy.maxSlackBits
    ensures PenaltyLike(WindowEnergy(ms, w, from, policy, x), policy.budget)
    ensures WindowEnergy(ms, w, from, policy, x) == 0
       <==> SelectedLoad(ms, x) <= w.liquidityCapMinor && SlackFills(ms, w.liquidityCapMinor, from, x)
  {
    var cap, P := w.liquidityCapMinor, policy.budget;
    SelectedLoadBounds(ms, x);
    match EncodingOf(ms, cap)
    case NoBudget =>
    case PairPruned =>
      OverCapPairsMeaning(ms, |ms|, cap, P, x);
      RowsFitPairs(ms, cap, x);
      ExactMeansPairsDecide(Amounts(ms), cap, Selection(ms, x));
    case SlackEncoded =>
      SlackResidual(ms, cap, from, x);
      var amounts, sel := NatAmounts(ms), Selection(ms, x);
      var slack := SlackBits(x, from, SlackWidth(amounts, cap));
      SquarePenalty(P, Residual(amounts, cap, sel, slack));
      if SelectedLoad(ms, x) <= cap {
        SlackExact(amounts, cap, sel, slack);
      } else {
        OverCapResidual(amounts, cap, sel, slack);
      }
  }
}
