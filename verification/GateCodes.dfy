/** Which refusal codes the gate gives, each read off the field, id or reference it complains about. */
module GateCodes {
  import opened Sums
  import opened Scenario

  predicate InRange(v: int) {
    -9007199254740991 <= v <= 9007199254740991
  }

  /** `v` is the small-letter text `m`, but for its case. */
  predicate Spells(v: string, m: string) {
    |v| == |m| && forall i :: 0 <= i < |v| ==> m[i] == if 'A' <= v[i] <= 'Z' then v[i] - 'A' + 'a' else v[i]
  }

  lemma {:induction false} LowerSpells(v: string, m: string)
    ensures Lower(v) == m <==> Spells(v, m)
  {
    if v != "" && m != "" {
      LowerSpells(v[1..], m[1..]);
      assert Lower(v) == [Lower(v)[0]] + Lower(v[1..]) && m == [m[0]] + m[1..];
      if Spells(v, m) { assert Spells(v[1..], m[1..]); }
      if Spells(v[1..], m[1..]) { assert forall i :: 1 <= i < |v| ==> v[i] == v[1..][i - 1] && (i < |m| ==> m[i] == m[1..][i - 1]); }
    }
  }

  ghost predicate HeaderBad(h: Header, p: PenaltyPolicy, c: Refusal) {
    match c
    case MissingField =>
      "" in [h.scenarioId, h.policyVersion, h.manifestHash, h.encodingVersion, h.penaltyPolicyId] || h.classicalBaselineRef == Baseline("")
    case LivePolicyVersion => exists m :: m in ["live", "latest", "current", "head"] && Spells(h.policyVersion, m)
    case EncodingVersionMismatch => h.encodingVersion !in ["", "draw-window/v1"]
    case PenaltyPolicyMismatch => h.penaltyPolicyId != p.id
    case _ => false
  }

  ghost predicate WindowBad(ws: seq<Window>, j: nat, c: Refusal)
    requires j < |ws|
  {
    match c
    case MissingField => ws[j].id == ""
    case DuplicateId => ws[j].id != "" && exists i :: 0 <= i < j && ws[i].id == ws[j].id
    case NonIntegerMoney => !(0 < ws[j].liquidityCapMinor <= 9007199254740991)
    case _ => false
  }

  ghost predicate KnownWindow(ws: seq<Window>, id: string) {
    id != "" && exists j :: 0 <= j < |ws| && ws[j].id == id
  }

  ghost predicate KnownDraw(ds: seq<Draw>, id: string) {
    id != "" && exists i :: 0 <= i < |ds| && ds[i].id == id
  }

  ghost predicate FieldBad(d: Draw, c: Refusal) {
    match c
    case MissingField => d.spvId == "" || d.sponsorId == "" || !InRange(d.tranche)
    case NonIntegerMoney => !(0 < d.amountMinor <= 9007199254740991)
    case NonIntegerWeight => !InRange(d.utility) || !InRange(d.deferralCost)
    case _ => false
  }

  ghost predicate DelayBad(e: DelayEntry, ws: seq<Window>, c: Refusal) {
    match c
    case UnknownReference => !KnownWindow(ws, e.window)
    case NonIntegerWeight => !InRange(e.cost)
    case _ => false
  }

  ghost predicate DrawBad(ds: seq<Draw>, i: nat, ws: seq<Window>, c: Refusal)
    requires i < |ds|
  {
    || (c == MissingField && ds[i].id == "")
    || (c == DuplicateId && ds[i].id != "" && exists k :: 0 <= k < i && ds[k].id == ds[i].id)
    || FieldBad(ds[i], c)
    || (c == UnknownReference && exists k :: 0 <= k < |ds[i].windowEligibility| && !KnownWindow(ws, ds[i].windowEligibility[k]))
    || (exists k :: 0 <= k < |ds[i].delayCost| && DelayBad(ds[i].delayCost[k], ws, c))
  }

  ghost predicate PairBad(left: string, right: string, ds: seq<Draw>, c: Refusal) {
    match c
    case UnknownReference => !KnownDraw(ds, left) || !KnownDraw(ds, right)
    case InvalidPair => left == right
    case _ => false
  }

  ghost predicate ConcentrationBad(pair: Concentration, ds: seq<Draw>, c: Refusal) {
    PairBad(pair.left, pair.right, ds, c) || (c == NonIntegerWeight && !(0 <= pair.weight <= 9007199254740991))
  }

  /** The gate gives a code for a scenario exactly if one of the things the code stands for is wrong with it. */
  ghost predicate ScenarioBad(s: FrozenScenario, p: PenaltyPolicy, c: Refusal) {
    || HeaderBad(s.header, p, c)
    || (exists j :: 0 <= j < |s.windows| && WindowBad(s.windows, j, c))
    || (exists i :: 0 <= i < |s.draws| && DrawBad(s.draws, i, s.windows, c))
    || (exists k :: 0 <= k < |s.precedence| && PairBad(s.precedence[k].before, s.precedence[k].after, s.draws, c))
    || (exists k :: 0 <= k < |s.concentrationPairs| && ConcentrationBad(s.concentrationPairs[k], s.draws, c))
  }

  lemma {:induction false} WindowIdsAre(ws: seq<Window>, id: string)
    ensures id in WindowIds(ws) <==> KnownWindow(ws, id)
  {
    if ws != [] {
      WindowIdsAre(Front(ws), id);
      assert forall j :: 0 <= j < |ws| - 1 ==> ws[j] == Front(ws)[j];
    }
  }

  lemma {:induction false} DrawIdsAre(ds: seq<Draw>, id: string)
    ensures id in DrawIds(ds) <==> KnownDraw(ds, id)
  {
    if ds != [] {
      DrawIdsAre(Front(ds), id);
      assert forall i :: 0 <= i < |ds| - 1 ==> ds[i] == Front(ds)[i];
    }
  }

  lemma HeaderCodes(h: Header, p: PenaltyPolicy, c: Refusal)
    ensures c in HeaderRefusals([], h, p) <==> HeaderBad(h, p, c)
  {
    forall m | m in ["live", "latest", "current", "head"] ensures Lower(h.policyVersion) == m <==> Spells(h.policyVersion, m) {
      LowerSpells(h.policyVersion, m);
    }
    MarkersAre(Lower(h.policyVersion));
    hide Lower, Spells, LIVE_POLICY_MARKERS;
  }

  lemma MarkersAre(v: string)
    ensures v in LIVE_POLICY_MARKERS <==> v in ["live", "latest", "current", "head"]
    ensures v in LIVE_POLICY_MARKERS ==> v != ""
  {
  }

  lemma WindowBadEarlier(ws: seq<Window>, j: nat, c: Refusal)
    requires j < |ws| - 1
    ensures WindowBad(ws, j, c) <==> WindowBad(Front(ws), j, c)
  {
    assert forall i :: 0 <= i <= j ==> Front(ws)[i] == ws[i];
  }

  lemma {:induction false} WindowCodes(out: seq<Refusal>, ws: seq<Window>, c: Refusal)
    ensures c in WindowsRefusals(out, ws) <==> c in out || exists j :: 0 <= j < |ws| && WindowBad(ws, j, c)
  {
    if ws != [] {
      WindowCodes(out, Front(ws), c);
      WindowIdsAre(Front(ws), Last(ws).id);
      WindowCodesLast(WindowsRefusals(out, Front(ws)), ws, c);
      hide WindowBad;
      forall j | 0 <= j < |ws| - 1 ensures WindowBad(ws, j, c) <==> WindowBad(Front(ws), j, c) { WindowBadEarlier(ws, j, c); }
    }
  }

  lemma WindowCodesLast(out: seq<Refusal>, ws: seq<Window>, c: Refusal)
    requires ws != []
    ensures c in WindowRefusals(out, Last(ws), WindowIds(Front(ws))) <==> c in out || WindowBad(ws, |ws| - 1, c)
  {
    WindowIdsAre(Front(ws), Last(ws).id);
    assert forall i :: 0 <= i < |ws| - 1 ==> Front(ws)[i] == ws[i];
  }

  lemma {:induction false} ReferenceCodes(out: seq<Refusal>, refs: seq<string>, ws: seq<Window>, c: Refusal)
    ensures c in ReferenceRefusals(out, refs, WindowIds(ws))
       <==> c in out || (c == UnknownReference && exists k :: 0 <= k < |refs| && !KnownWindow(ws, refs[k]))
  {
    if refs != [] {
      ReferenceCodes(out, Front(refs), ws, c);
      WindowIdsAre(ws, Last(refs));
      hide KnownWindow;
      assert forall k :: 0 <= k < |refs| - 1 ==> refs[k] == Front(refs)[k];
    }
  }

  lemma {:induction false} DelayCodes(out: seq<Refusal>, es: seq<DelayEntry>, ws: seq<Window>, c: Refusal)
    ensures c in DelayRefusals(out, es, WindowIds(ws)) <==> c in out || exists k :: 0 <= k < |es| && DelayBad(es[k], ws, c)
  {
    if es != [] {
      DelayCodes(out, Front(es), ws, c);
      WindowIdsAre(ws, Last(es).window);
      hide KnownWindow;
      assert forall k :: 0 <= k < |es| - 1 ==> es[k] == Front(es)[k];
    }
  }

  lemma DrawCodesLast(out: seq<Refusal>, ds: seq<Draw>, ws: seq<Window>, c: Refusal)
    requires ds != []
    ensures c in DrawRefusals(out, Last(ds), DrawIds(Front(ds)), WindowIds(ws)) <==> c in out || DrawBad(ds, |ds| - 1, ws, c)
  {
    var d, seen := Last(ds), DrawIds(Front(ds));
    var fields := DrawFieldRefusals(IdRefusals(out, d.id, seen), d);
    DrawIdsAre(Front(ds), d.id);
    assert forall i :: 0 <= i < |ds| - 1 ==> Front(ds)[i] == ds[i];
    FieldCodes(out, d, seen, c);
    hide DrawFieldRefusals, IdRefusals, FieldBad, DelayBad;
    ReferenceCodes(fields, d.windowEligibility, ws, c);
    DelayCodes(ReferenceRefusals(fields, d.windowEligibility, WindowIds(ws)), d.delayCost, ws, c);
  }

  lemma FieldCodes(out: seq<Refusal>, d: Draw, seen: set<string>, c: Refusal)
    ensures c in DrawFieldRefusals(IdRefusals(out, d.id, seen), d)
       <==> c in out || (c == MissingField && d.id == "") || (c == DuplicateId && d.id != "" && d.id in seen) || FieldBad(d, c)
  {
  }

  lemma DrawBadEarlier(ds: seq<Draw>, i: nat, ws: seq<Window>, c: Refusal)
    requires i < |ds| - 1
    ensures DrawBad(ds, i, ws, c) <==> DrawBad(Front(ds), i, ws, c)
  {
    assert forall k :: 0 <= k <= i ==> Front(ds)[k] == ds[k];
  }

  lemma {:induction false} DrawCodes(out: seq<Refusal>, ds: seq<Draw>, ws: seq<Window>, c: Refusal)
    ensures c in DrawsRefusals(out, ds, WindowIds(ws)) <==> c in out || exists i :: 0 <= i < |ds| && DrawBad(ds, i, ws, c)
  {
    hide DrawBad, DrawRefusals;
    if ds != [] {
      DrawCodes(out, Front(ds), ws, c);
      DrawCodesLast(DrawsRefusals(out, Front(ds), WindowIds(ws)), ds, ws, c);
      forall i | 0 <= i < |ds| - 1 ensures DrawBad(ds, i, ws, c) <==> DrawBad(Front(ds), i, ws, c) { DrawBadEarlier(ds, i, ws, c); }
    }
  }

  lemma PairCodes(out: seq<Refusal>, left: string, right: string, ds: seq<Draw>, c: Refusal)
    ensures c in PairRefusals(out, left, right, DrawIds(ds)) <==> c in out || PairBad(left, right, ds, c)
  {
    DrawIdsAre(ds, left);
    DrawIdsAre(ds, right);
  }

  lemma {:induction false} PrecedenceCodes(out: seq<Refusal>, ps: seq<Precedence>, ds: seq<Draw>, c: Refusal)
    ensures c in PrecedenceRefusals(out, ps, DrawIds(ds))
       <==> c in out || exists k :: 0 <= k < |ps| && PairBad(ps[k].before, ps[k].after, ds, c)
  {
    hide PairBad, PairRefusals;
    if ps != [] {
      PrecedenceCodes(out, Front(ps), ds, c);
      PairCodes(PrecedenceRefusals(out, Front(ps), DrawIds(ds)), Last(ps).before, Last(ps).after, ds, c);
      assert forall k :: 0 <= k < |ps| - 1 ==> ps[k] == Front(ps)[k];
    }
  }

  lemma {:induction false} ConcentrationCodes(out: seq<Refusal>, cs: seq<Concentration>, ds: seq<Draw>, c: Refusal)
    ensures c in ConcentrationRefusals(out, cs, DrawIds(ds)) <==> c in out || exists k :: 0 <= k < |cs| && ConcentrationBad(cs[k], ds, c)
  {
    hide PairBad, PairRefusals;
    if cs != [] {
      ConcentrationCodes(out, Front(cs), ds, c);
      PairCodes(ConcentrationRefusals(out, Front(cs), DrawIds(ds)), Last(cs).left, Last(cs).right, ds, c);
      assert forall k :: 0 <= k < |cs| - 1 ==> cs[k] == Front(cs)[k];
    }
  }

  lemma ScenarioCodes(s: FrozenScenario, p: PenaltyPolicy, c: Refusal)
    ensures c in ScenarioRefusals(s, p) <==> ScenarioBad(s, p, c)
  {
    hide HeaderBad, WindowBad, DrawBad, PairBad, ConcentrationBad, HeaderRefusals, WindowsRefusals, DrawsRefusals, PrecedenceRefusals, ConcentrationRefusals;
    var a := HeaderRefusals([], s.header, p);
    var b := WindowsRefusals(a, s.windows);
    var d := DrawsRefusals(b, s.draws, WindowIds(s.windows));
    var e := PrecedenceRefusals(d, s.precedence, DrawIds(s.draws));
    HeaderCodes(s.header, p, c);
    WindowCodes(a, s.windows, c);
    DrawCodes(b, s.draws, s.windows, c);
    PrecedenceCodes(d, s.precedence, s.draws, c);
    ConcentrationCodes(e, s.concentrationPairs, s.draws, c);
  }

  /** The policy checks know one code, given for a missing id, a penalty that is no positive safe integer or a bad slack allowance. */
  lemma PolicyCodes(p: PenaltyPolicy, c: Refusal)
    ensures c in PolicyRefusals(p) <==>
            c == InvalidPenaltyPolicy && (p.id == "" || !(0 <= p.maxSlackBits <= 9007199254740991) ||
              exists v :: v in [p.cardinality, p.precedence, p.budget] && !(0 < v <= 9007199254740991))
  {
    var vs := [p.cardinality, p.precedence, p.budget];
    assert vs[0] in vs && vs[1] in vs && vs[2] in vs;
  }
}
