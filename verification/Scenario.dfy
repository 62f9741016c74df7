/** The frozen scenario, the penalty policy, and the gate in front of the compiler. */
module Scenario {
  import opened Sums

  const MAX_SAFE := 0x1F_FFFF_FFFF_FFFF
  const ENCODING_VERSION := "draw-window/v1"
  const LIVE_POLICY_MARKERS := {"live", "latest", "current", "head"}

  /** One entry of a draw's delay costs, in the order the entries are listed; windows do not repeat. */
  datatype DelayEntry = DelayEntry(window: string, cost: int)

  datatype Draw = Draw(
    id: string,
    amountMinor: int,
    spvId: string,
    sponsorId: string,
    tranche: int,
    windowEligibility: seq<string>,
    utility: int,
    deferralCost: int,
    delayCost: seq<DelayEntry>)

  datatype Window = Window(id: string, liquidityCapMinor: int)

  /** Whenever both draws are placed, the first one's window comes before the second one's. */
  datatype Precedence = Precedence(before: string, after: string)

  /** Same-window crowding weight. */
  datatype Concentration = Concentration(left: string, right: string, weight: int)

  datatype Baseline = NoBaseline | Baseline(ref: string)

  datatype Header = Header(
    scenarioId: string,
    policyVersion: string,
    manifestHash: string,
    encodingVersion: string,
    penaltyPolicyId: string,
    classicalBaselineRef: Baseline)

  /** Windows are listed from the earliest to the latest. */
  datatype FrozenScenario = FrozenScenario(
    header: Header,
    draws: seq<Draw>,
    windows: seq<Window>,
    precedence: seq<Precedence>,
    concentrationPairs: seq<Concentration>)

  datatype PenaltyPolicy = PenaltyPolicy(id: string, cardinality: int, precedence: int, budget: int, maxSlackBits: int)

  datatype Kind = Cardinality | PrecedenceKind | BudgetPair | BudgetSlack

  datatype Refusal =
    | MissingField | LivePolicyVersion | EncodingVersionMismatch | PenaltyPolicyMismatch
    | NonIntegerMoney | NonIntegerWeight | DuplicateId | UnknownReference | InvalidPair | InvalidPenaltyPolicy
    | SlackBitsExceedPolicy(window: string) | PenaltyBelowFloor(kind: Kind) | NumericRange

  predicate SafeInt(v: int) {
    -MAX_SAFE <= v <= MAX_SAFE
  }

  predicate Money(v: int) {
    0 < v <= MAX_SAFE
  }

  function Lower(s: string): string {
    if s == "" then ""
    else [if 'A' <= s[0] <= 'Z' then s[0] - 'A' + 'a' else s[0]] + Lower(s[1..])
  }

  /** One check: a failed one appends its refusal to the shared list. */
  function Push(out: seq<Refusal>, bad: bool, r: Refusal): seq<Refusal> {
    if bad then out + [r] else out
  }

  // ---------------------------------------------------------------------------
  // The refusal list, check by check
  // ---------------------------------------------------------------------------

  function PolicyRefusals(p: PenaltyPolicy): seq<Refusal> {
    if p.id == "" then [InvalidPenaltyPolicy]
    else
      var a := Push([], !Money(p.cardinality), InvalidPenaltyPolicy);
      var b := Push(a, !Money(p.precedence), InvalidPenaltyPolicy);
      var c := Push(b, !Money(p.budget), InvalidPenaltyPolicy);
      Push(c, !(0 <= p.maxSlackBits <= MAX_SAFE), InvalidPenaltyPolicy)
  }

  function HeaderRefusals(out: seq<Refusal>, h: Header, p: PenaltyPolicy): seq<Refusal> {
    var a := Push(out, h.scenarioId == "", MissingField);
    var b := Push(a, h.policyVersion == "", MissingField);
    var c := Push(b, h.manifestHash == "", MissingField);
    var d := Push(c, h.encodingVersion == "", MissingField);
    var e := Push(d, h.penaltyPolicyId == "", MissingField);
    var f := Push(e, h.policyVersion != "" && Lower(h.policyVersion) in LIVE_POLICY_MARKERS, LivePolicyVersion);
    var g := Push(f, h.encodingVersion != "" && h.encodingVersion != ENCODING_VERSION, EncodingVersionMismatch);
    var i := Push(g, h.penaltyPolicyId != p.id, PenaltyPolicyMismatch);
    Push(i, h.classicalBaselineRef == Baseline(""), MissingField)
  }

  function IdRefusals(out: seq<Refusal>, id: string, seen: set<string>): seq<Refusal> {
    if id == "" then out + [MissingField] else Push(out, id in seen, DuplicateId)
  }

  function WindowRefusals(out: seq<Refusal>, w: Window, seen: set<string>): seq<Refusal> {
    Push(IdRefusals(out, w.id, seen), !Money(w.liquidityCapMinor), NonIntegerMoney)
  }

  function WindowIds(ws: seq<Window>): set<string> {
    if ws == [] then {} else WindowIds(Front(ws)) + if Last(ws).id == "" then {} else {Last(ws).id}
  }

  function WindowsRefusals(out: seq<Refusal>, ws: seq<Window>): seq<Refusal> {
    if ws == [] then out
    else WindowRefusals(WindowsRefusals(out, Front(ws)), Last(ws), WindowIds(Front(ws)))
  }

  function ReferenceRefusals(out: seq<Refusal>, refs: seq<string>, known: set<string>): seq<Refusal> {
    if refs == [] then out
    else Push(ReferenceRefusals(out, Front(refs), known), Last(refs) !in known, UnknownReference)
  }

  function DrawFieldRefusals(out: seq<Refusal>, d: Draw): seq<Refusal> {
    var b := Push(out, d.spvId == "", MissingField);
    var c := Push(b, d.sponsorId == "", MissingField);
    var e := Push(c, !SafeInt(d.tranche), MissingField);
    var f := Push(e, !Money(d.amountMinor), NonIntegerMoney);
    var g := Push(f, !SafeInt(d.utility), NonIntegerWeight);
    Push(g, !SafeInt(d.deferralCost), NonIntegerWeight)
  }

  function DelayRefusals(out: seq<Refusal>, es: seq<DelayEntry>, windows: set<string>): seq<Refusal> {
    if es == [] then out
    else
      var a := Push(DelayRefusals(out, Front(es), windows), Last(es).window !in windows, UnknownReference);
      Push(a, !SafeInt(Last(es).cost), NonIntegerWeight)
  }

  function DrawRefusals(out: seq<Refusal>, d: Draw, seen: set<string>, windows: set<string>): seq<Refusal> {
    var a := DrawFieldRefusals(IdRefusals(out, d.id, seen), d);
    var b := ReferenceRefusals(a, d.windowEligibility, windows);
    DelayRefusals(b, d.delayCost, windows)
  }

  function DrawIds(ds: seq<Draw>): set<string> {
    if ds == [] then {} else DrawIds(Front(ds)) + if Last(ds).id == "" then {} else {Last(ds).id}
  }

  function DrawsRefusals(out: seq<Refusal>, ds: seq<Draw>, windows: set<string>): seq<Refusal> {
    if ds == [] then out
    else DrawRefusals(DrawsRefusals(out, Front(ds), windows), Last(ds), DrawIds(Front(ds)), windows)
  }

  function PairRefusals(out: seq<Refusal>, a: string, b: string, draws: set<string>): seq<Refusal> {
    Push(Push(Push(out, a !in draws, UnknownReference), b !in draws, UnknownReference), a == b, InvalidPair)
  }

  function PrecedenceRefusals(out: seq<Refusal>, ps: seq<Precedence>, draws: set<string>): seq<Refusal> {
    if ps == [] then out
    else PairRefusals(PrecedenceRefusals(out, Front(ps), draws), Last(ps).before, Last(ps).after, draws)
  }

  function ConcentrationRefusals(out: seq<Refusal>, cs: seq<Concentration>, draws: set<string>): seq<Refusal> {
    if cs == [] then out
    else
      var c := Last(cs);
      Push(PairRefusals(ConcentrationRefusals(out, Front(cs), draws), c.left, c.right, draws),
           !(SafeInt(c.weight) && c.weight >= 0), NonIntegerWeight)
  }

  function ScenarioRefusals(s: FrozenScenario, p: PenaltyPolicy): seq<Refusal> {
    var a := HeaderRefusals([], s.header, p);
    var b := WindowsRefusals(a, s.windows);
    var c := DrawsRefusals(b, s.draws, WindowIds(s.windows));
    var d := PrecedenceRefusals(c, s.precedence, DrawIds(s.draws));
    ConcentrationRefusals(d, s.concentrationPairs, DrawIds(s.draws))
  }

  // ---------------------------------------------------------------------------
  // The gate itself: checks push refusals onto one shared list
  // ---------------------------------------------------------------------------

  method ValidatePenaltyPolicy(p: PenaltyPolicy) returns (out: seq<Refusal>)
    ensures out == PolicyRefusals(p)
  {
    out := [];
    if p.id == "" {
      return [InvalidPenaltyPolicy];
    }
    if !Money(p.cardinality) { out := out + [InvalidPenaltyPolicy]; }
    if !Money(p.precedence) { out := out + [InvalidPenaltyPolicy]; }
    if !Money(p.budget) { out := out + [InvalidPenaltyPolicy]; }
    if !(0 <= p.maxSlackBits <= MAX_SAFE) { out := out + [InvalidPenaltyPolicy]; }
  }

  class Gate {
    var out: seq<Refusal>
    var windowIds: set<string>
    var drawIds: set<string>

    constructor ()
      ensures out == [] && windowIds == {} && drawIds == {}
    {
      out, windowIds, drawIds := [], {}, {};
    }

    method Check(bad: bool, r: Refusal)
      modifies this`out
      ensures out == Push(old(out), bad, r)
    {
      if bad { out := out + [r]; }
    }

    method CheckHeader(h: Header, p: PenaltyPolicy)
      modifies this`out
      ensures out == HeaderRefusals(old(out), h, p)
    {
      Check(h.scenarioId == "", MissingField);
      Check(h.policyVersion == "", MissingField);
      Check(h.manifestHash == "", MissingField);
      Check(h.encodingVersion == "", MissingField);
      Check(h.penaltyPolicyId == "", MissingField);
      Check(h.policyVersion != "" && Lower(h.policyVersion) in LIVE_POLICY_MARKERS, LivePolicyVersion);
      Check(h.encodingVersion != "" && h.encodingVersion != ENCODING_VERSION, EncodingVersionMismatch);
      Check(h.penaltyPolicyId != p.id, PenaltyPolicyMismatch);
      Check(h.classicalBaselineRef == Baseline(""), MissingField);
    }

    method CheckWindows(ws: seq<Window>)
      requires windowIds == {}
      modifies this`out, this`windowIds
      ensures out == WindowsRefusals(old(out), ws) && windowIds == WindowIds(ws)
    {
      for i := 0 to |ws|
        invariant out == WindowsRefusals(old(out), ws[..i]) && windowIds == WindowIds(ws[..i])
      {
        var w := ws[i];
        assert Front(ws[..i + 1]) == ws[..i];
        assert ws[..i + 1] == ws[..i] + [w];
        if w.id == "" {
          out := out + [MissingField];
        } else if w.id in windowIds {
          out := out + [DuplicateId];
        } else {
          windowIds := windowIds + {w.id};
        }
        Check(!Money(w.liquidityCapMinor), NonIntegerMoney);
      }
      assert ws[..|ws|] == ws;
    }

    method CheckReferences(refs: seq<string>)
      modifies this`out
      ensures out == ReferenceRefusals(old(out), refs, windowIds)
    {
      for i := 0 to |refs|
        invariant out == ReferenceRefusals(old(out), refs[..i], windowIds)
      {
        assert Front(refs[..i + 1]) == refs[..i];
        Check(refs[i] !in windowIds, UnknownReference);
      }
      assert refs[..|refs|] == refs;
    }

    method CheckDelays(es: seq<DelayEntry>)
      modifies this`out
      ensures out == DelayRefusals(old(out), es, windowIds)
    {
      for i := 0 to |es|
        invariant out == DelayRefusals(old(out), es[..i], windowIds)
      {
        assert Front(es[..i + 1]) == es[..i];
        Check(es[i].window !in windowIds, UnknownReference);
        Check(!SafeInt(es[i].cost), NonIntegerWeight);
      }
      assert es[..|es|] == es;
    }

    method CheckDrawFields(d: Draw)
      modifies this`out
      ensures out == DrawFieldRefusals(old(out), d)
    {
      Check(d.spvId == "", MissingField);
      Check(d.sponsorId == "", MissingField);
      Check(!SafeInt(d.tranche), MissingField);
      Check(!Money(d.amountMinor), NonIntegerMoney);
      Check(!SafeInt(d.utility), NonIntegerWeight);
      Check(!SafeInt(d.deferralCost), NonIntegerWeight);
    }

    method CheckDraw(d: Draw)
      modifies this`out, this`drawIds
      ensures out == DrawRefusals(old(out), d, old(drawIds), windowIds)
      ensures drawIds == old(drawIds) + if d.id == "" then {} else {d.id}
    {
      if d.id == "" {
        out := out + [MissingField];
      } else if d.id in drawIds {
        out := out + [DuplicateId];
      } else {
        drawIds := drawIds + {d.id};
      }
      CheckDrawFields(d);
      CheckReferences(d.windowEligibility);
      CheckDelays(d.delayCost);
    }

    method CheckDraws(ds: seq<Draw>)
      requires drawIds == {}
      modifies this`out, this`drawIds
      ensures out == DrawsRefusals(old(out), ds, windowIds) && drawIds == DrawIds(ds)
    {
      for i := 0 to |ds|
        invariant out == DrawsRefusals(old(out), ds[..i], windowIds) && drawIds == DrawIds(ds[..i])
      {
        assert Front(ds[..i + 1]) == ds[..i];
        assert ds[..i + 1] == ds[..i] + [ds[i]];
        CheckDraw(ds[i]);
      }
      assert ds[..|ds|] == ds;
    }

    method CheckPrecedence(ps: seq<Precedence>)
      modifies this`out
      ensures out == PrecedenceRefusals(old(out), ps, drawIds)
    {
      for i := 0 to |ps|
        invariant out == PrecedenceRefusals(old(out), ps[..i], drawIds)
      {
        assert Front(ps[..i + 1]) == ps[..i];
        Check(ps[i].before !in drawIds, UnknownReference);
        Check(ps[i].after !in drawIds, UnknownReference);
        Check(ps[i].before == ps[i].after, InvalidPair);
      }
      assert ps[..|ps|] == ps;
    }

    method CheckConcentration(cs: seq<Concentration>)
      modifies this`out
      ensures out == ConcentrationRefusals(old(out), cs, drawIds)
    {
      for i := 0 to |cs|
        invariant out == ConcentrationRefusals(old(out), cs[..i], drawIds)
      {
        assert Front(cs[..i + 1]) == cs[..i];
        Check(cs[i].left !in drawIds, UnknownReference);
        Check(cs[i].right !in drawIds, UnknownReference);
        Check(cs[i].left == cs[i].right, InvalidPair);
        Check(!(SafeInt(cs[i].weight) && cs[i].weight >= 0), NonIntegerWeight);
      }
      assert cs[..|cs|] == cs;
    }
  }

  method ValidateScenario(s: FrozenScenario, p: PenaltyPolicy) returns (out: seq<Refusal>)
    ensures out == ScenarioRefusals(s, p)
  {
    var gate := new Gate();
    gate.CheckHeader(s.header, p);
    gate.CheckWindows(s.windows);
    gate.CheckDraws(s.draws);
    gate.CheckPrecedence(s.precedence);
    gate.CheckConcentration(s.concentrationPairs);
    out := gate.out;
  }

  // ---------------------------------------------------------------------------
  // What an empty refusal list means
  // ---------------------------------------------------------------------------

  ghost predicate ValidPolicy(p: PenaltyPolicy) {
    p.id != "" && Money(p.cardinality) && Money(p.precedence) && Money(p.budget) && 0 <= p.maxSlackBits <= MAX_SAFE
  }

  ghost predicate UniqueWindows(ws: seq<Window>) {
    forall i, j :: 0 <= i < j < |ws| ==> ws[i].id != ws[j].id
  }

  ghost predicate UniqueDraws(ds: seq<Draw>) {
    forall i, j :: 0 <= i < j < |ds| ==> ds[i].id != ds[j].id
  }

  ghost predicate ValidHeader(h: Header, p: PenaltyPolicy) {
    && h.scenarioId != "" && h.manifestHash != "" && h.policyVersion != ""
    && Lower(h.policyVersion) !in LIVE_POLICY_MARKERS
    && h.encodingVersion == ENCODING_VERSION && h.penaltyPolicyId == p.id != ""
    && h.classicalBaselineRef != Baseline("")
  }

  ghost predicate ValidWindow(w: Window) {
    w.id != "" && Money(w.liquidityCapMinor)
  }

  ghost predicate ValidDraw(d: Draw, windows: set<string>) {
    && d.id != "" && d.spvId != "" && d.sponsorId != "" && SafeInt(d.tranche)
    && Money(d.amountMinor) && SafeInt(d.utility) && SafeInt(d.deferralCost)
    && (forall i :: 0 <= i < |d.windowEligibility| ==> d.windowEligibility[i] in windows)
    && (forall i :: 0 <= i < |d.delayCost| ==> d.delayCost[i].window in windows && SafeInt(d.delayCost[i].cost))
  }

  ghost predicate ValidPrecedence(p: Precedence, draws: set<string>) {
    p.before in draws && p.after in draws && p.before != p.after
  }

  ghost predicate ValidConcentration(c: Concentration, draws: set<string>) {
    c.left in draws && c.right in draws && c.left != c.right && 0 <= c.weight <= MAX_SAFE
  }

  ghost predicate ValidScenario(s: FrozenScenario, p: PenaltyPolicy) {
    && ValidHeader(s.header, p)
    && UniqueWindows(s.windows) && (forall i :: 0 <= i < |s.windows| ==> ValidWindow(s.windows[i]))
    && UniqueDraws(s.draws) && (forall i :: 0 <= i < |s.draws| ==> ValidDraw(s.draws[i], WindowIds(s.windows)))
    && (forall i :: 0 <= i < |s.precedence| ==> ValidPrecedence(s.precedence[i], DrawIds(s.draws)))
    && (forall i :: 0 <= i < |s.concentrationPairs| ==> ValidConcentration(s.concentrationPairs[i], DrawIds(s.draws)))
  }

  lemma {:induction false} FreshWindow(ws: seq<Window>, id: string)
    requires id != ""
    ensures id !in WindowIds(ws) <==> forall i :: 0 <= i < |ws| ==> ws[i].id != id
  {
    if ws != [] {
      FreshWindow(Front(ws), id);
      assert forall i :: 0 <= i < |ws| - 1 ==> ws[i] == Front(ws)[i];
    }
  }

  lemma {:induction false} FreshDraw(ds: seq<Draw>, id: string)
    requires id != ""
    ensures id !in DrawIds(ds) <==> forall i :: 0 <= i < |ds| ==> ds[i].id != id
  {
    if ds != [] {
      FreshDraw(Front(ds), id);
      assert forall i :: 0 <= i < |ds| - 1 ==> ds[i] == Front(ds)[i];
    }
  }

  lemma WindowsSplit(front: seq<Window>, w: Window)
    ensures (forall i :: 0 <= i < |front + [w]| ==> ValidWindow((front + [w])[i]))
       <==> ValidWindow(w) && forall i :: 0 <= i < |front| ==> ValidWindow(front[i])
  {
    var ws := front + [w];
    assert ws[|front|] == w && forall i :: 0 <= i < |front| ==> ws[i] == front[i];
  }

  lemma DrawsSplit(front: seq<Draw>, d: Draw, windows: set<string>)
    ensures (forall i :: 0 <= i < |front + [d]| ==> ValidDraw((front + [d])[i], windows))
       <==> ValidDraw(d, windows) && forall i :: 0 <= i < |front| ==> ValidDraw(front[i], windows)
  {
    var ds := front + [d];
    assert ds[|front|] == d && forall i :: 0 <= i < |front| ==> ds[i] == front[i];
  }

  lemma UniqueWindowsStep(front: seq<Window>, w: Window)
    ensures UniqueWindows(front + [w]) <==> UniqueWindows(front) && forall i :: 0 <= i < |front| ==> front[i].id != w.id
  {
    var ws := front + [w];
    assert ws[|front|] == w && forall i :: 0 <= i < |front| ==> ws[i] == front[i];
  }

  lemma UniqueDrawsStep(front: seq<Draw>, d: Draw)
    ensures UniqueDraws(front + [d]) <==> UniqueDraws(front) && forall i :: 0 <= i < |front| ==> front[i].id != d.id
  {
    var ds := front + [d];
    assert ds[|front|] == d && forall i :: 0 <= i < |front| ==> ds[i] == front[i];
  }

  lemma {:induction false} WindowsPass(out: seq<Refusal>, ws: seq<Window>)
    ensures WindowsRefusals(out, ws) == [] <==>
            out == [] && UniqueWindows(ws) && forall i :: 0 <= i < |ws| ==> ValidWindow(ws[i])
  {
    if ws != [] {
      var front := Front(ws);
      WindowsPass(out, front);
      var w := Last(ws);
      assert ws == front + [w];
      UniqueWindowsStep(front, w);
      if w.id != "" { FreshWindow(front, w.id); }
      WindowsSplit(front, w);
    }
  }

  lemma {:induction false} ReferencesPass(out: seq<Refusal>, refs: seq<string>, known: set<string>)
    ensures ReferenceRefusals(out, refs, known) == [] <==> out == [] && forall i :: 0 <= i < |refs| ==> refs[i] in known
  {
    if refs != [] {
      ReferencesPass(out, Front(refs), known);
      assert refs == Front(refs) + [Last(refs)];
    }
  }

  lemma {:induction false} DelaysPass(out: seq<Refusal>, es: seq<DelayEntry>, windows: set<string>)
    ensures DelayRefusals(out, es, windows) == [] <==>
            out == [] && forall i :: 0 <= i < |es| ==> es[i].window in windows && SafeInt(es[i].cost)
  {
    if es != [] {
      DelaysPass(out, Front(es), windows);
      assert es == Front(es) + [Last(es)];
    }
  }

  lemma DrawPasses(out: seq<Refusal>, d: Draw, seen: set<string>, windows: set<string>)
    ensures DrawRefusals(out, d, seen, windows) == [] <==> out == [] && ValidDraw(d, windows) && d.id !in seen
  {
    var fields := DrawFieldRefusals(IdRefusals(out, d.id, seen), d);
    ReferencesPass(fields, d.windowEligibility, windows);
    DelaysPass(ReferenceRefusals(fields, d.windowEligibility, windows), d.delayCost, windows);
  }

  lemma {:induction false} DrawsPass(out: seq<Refusal>, ds: seq<Draw>, windows: set<string>)
    ensures DrawsRefusals(out, ds, windows) == [] <==>
            out == [] && UniqueDraws(ds) && forall i :: 0 <= i < |ds| ==> ValidDraw(ds[i], windows)
  {
    if ds != [] {
      var front := Front(ds);
      DrawsPass(out, front, windows);
      DrawPasses(DrawsRefusals(out, front, windows), Last(ds), DrawIds(front), windows);
      var d := Last(ds);
      assert ds == front + [d];
      UniqueDrawsStep(front, d);
      if d.id != "" { FreshDraw(front, d.id); }
      DrawsSplit(front, d, windows);
    }
  }

  lemma {:induction false} PrecedencePasses(out: seq<Refusal>, ps: seq<Precedence>, draws: set<string>)
    ensures PrecedenceRefusals(out, ps, draws) == [] <==>
            out == [] && forall i :: 0 <= i < |ps| ==> ValidPrecedence(ps[i], draws)
  {
    if ps != [] {
      PrecedencePasses(out, Front(ps), draws);
      assert ps == Front(ps) + [Last(ps)];
    }
  }

  lemma {:induction false} ConcentrationPasses(out: seq<Refusal>, cs: seq<Concentration>, draws: set<string>)
    ensures ConcentrationRefusals(out, cs, draws) == [] <==>
            out == [] && forall i :: 0 <= i < |cs| ==> ValidConcentration(cs[i], draws)
  {
    if cs != [] {
      ConcentrationPasses(out, Front(cs), draws);
      assert cs == Front(cs) + [Last(cs)];
    }
  }

  /** The gate lets a scenario through exactly when it is well formed. */
  lemma GatePassesExactlyValid(s: FrozenScenario, p: PenaltyPolicy)
    ensures PolicyRefusals(p) + ScenarioRefusals(s, p) == [] <==> ValidPolicy(p) && ValidScenario(s, p)
  {
    var a := HeaderRefusals([], s.header, p);
    var b := WindowsRefusals(a, s.windows);
    var c := DrawsRefusals(b, s.draws, WindowIds(s.windows));
    var d := PrecedenceRefusals(c, s.precedence, DrawIds(s.draws));
    WindowsPass(a, s.windows);
    DrawsPass(b, s.draws, WindowIds(s.windows));
    PrecedencePasses(c, s.precedence, DrawIds(s.draws));
    ConcentrationPasses(d, s.concentrationPairs, DrawIds(s.draws));
    HeaderPasses(s.header, p);
  }

  lemma HeaderPasses(h: Header, p: PenaltyPolicy)
    ensures p.id != "" ==> (HeaderRefusals([], h, p) == [] <==> ValidHeader(h, p))
  {
  }
}
