/** The symbol table and the string-keyed bit lookups agree, as long as the joined keys are distinct. */
module VariableTable {
  import opened Sums
  import opened Scenario
  import opened CompilerSpec

  /**
   * No live (draw, window) pair shares its joined key with another pair of the
   * scenario. A caller can check this on the ids, the amounts and the caps.
   */
  ghost predicate KeysDistinct(draws: seq<Draw>, ws: seq<Window>) {
    forall i, j, k, l | 0 <= i < |draws| && 0 <= j < |ws| && 0 <= k < |draws| && 0 <= l < |ws| ::
      Live(draws[i], ws[j]) && BitKey(draws[i].id, ws[j].id) == BitKey(draws[k].id, ws[l].id) ==> i == k && j == l
  }

  predicate NoBar(id: string) {
    forall i :: 0 <= i < |id| ==> id[i] != '|'
  }

  lemma JoinInjective(a: string, b: string, c: string, d: string)
    requires NoBar(a) && NoBar(c) && BitKey(a, b) == BitKey(c, d)
    ensures a == c && b == d
  {
    var s, t := BitKey(a, b), BitKey(c, d);
    assert s[|a|] == '|' && t[|c|] == '|';
    assert forall i :: 0 <= i < |a| ==> s[i] == a[i];
    assert forall i :: 0 <= i < |c| ==> s[i] == c[i];
    assert |a| == |c|;
    assert a == s[..|a|] && c == t[..|c|];
    assert b == s[|a| + 1..] && d == t[|c| + 1..];
  }

  /** Ids without a bar never collide. */
  lemma NoBarKeysDistinct(draws: seq<Draw>, ws: seq<Window>)
    requires UniqueDraws(draws) && UniqueWindows(ws)
    requires forall i :: 0 <= i < |draws| ==> NoBar(draws[i].id)
    ensures KeysDistinct(draws, ws)
  {
    forall i, j, k, l | 0 <= i < |draws| && 0 <= j < |ws| && 0 <= k < |draws| && 0 <= l < |ws|
                        && BitKey(draws[i].id, ws[j].id) == BitKey(draws[k].id, ws[l].id)
      ensures i == k && j == l
    {
      JoinInjective(draws[i].id, ws[j].id, draws[k].id, ws[l].id);
    }
  }

  // ---------------------------------------------------------------------------
  // Which keys get a bit
  // ---------------------------------------------------------------------------

  function LiveKeysOf(d: Draw, ws: seq<Window>): set<string> {
    if ws == [] then {}
    else LiveKeysOf(d, Front(ws)) + if Live(d, Last(ws)) then {BitKey(d.id, Last(ws).id)} else {}
  }

  function LiveKeys(draws: seq<Draw>, ws: seq<Window>): set<string> {
    if draws == [] then {} else LiveKeys(Front(draws), ws) + LiveKeysOf(Last(draws), ws)
  }

  lemma {:induction false} LiveKeysOfOrigin(d: Draw, ws: seq<Window>, k: string) returns (j: nat)
    requires k in LiveKeysOf(d, ws)
    ensures j < |ws| && Live(d, ws[j]) && k == BitKey(d.id, ws[j].id)
  {
    if k in LiveKeysOf(d, Front(ws)) {
      j := LiveKeysOfOrigin(d, Front(ws), k);
    } else {
      j := |ws| - 1;
    }
  }

  lemma {:induction false} LiveKeysOrigin(draws: seq<Draw>, ws: seq<Window>, k: string) returns (i: nat, j: nat)
    requires k in LiveKeys(draws, ws)
    ensures i < |draws| && j < |ws| && Live(draws[i], ws[j]) && k == BitKey(draws[i].id, ws[j].id)
  {
    if k in LiveKeys(Front(draws), ws) {
      i, j := LiveKeysOrigin(Front(draws), ws, k);
    } else {
      i := |draws| - 1;
      j := LiveKeysOfOrigin(Last(draws), ws, k);
    }
  }

  lemma {:induction false} LiveKeysOfCover(d: Draw, ws: seq<Window>, j: nat)
    requires j < |ws| && Live(d, ws[j])
    ensures BitKey(d.id, ws[j].id) in LiveKeysOf(d, ws)
  {
    if j < |ws| - 1 { LiveKeysOfCover(d, Front(ws), j); }
  }

  lemma {:induction false} LiveKeysCover(draws: seq<Draw>, ws: seq<Window>, i: nat, j: nat)
    requires i < |draws| && j < |ws| && Live(draws[i], ws[j])
    ensures BitKey(draws[i].id, ws[j].id) in LiveKeys(draws, ws)
  {
    if i < |draws| - 1 { LiveKeysCover(Front(draws), ws, i, j); } else { LiveKeysOfCover(draws[i], ws, j); }
  }

  lemma {:induction false} NameXsKeys(v: Variables, d: Draw, ws: seq<Window>)
    ensures NameXs(v, d, ws).xBit.Keys == v.xBit.Keys + LiveKeysOf(d, ws)
  {
    if ws != [] { NameXsKeys(v, d, Front(ws)); }
  }

  lemma {:induction false} NameVariablesKeys(draws: seq<Draw>, ws: seq<Window>)
    ensures NameVariables(draws, ws).xBit.Keys == LiveKeys(draws, ws)
    ensures forall i :: 0 <= i < |draws| ==> draws[i].id in NameVariables(draws, ws).zBit
    ensures forall k :: k in NameVariables(draws, ws).zBit ==> exists i :: 0 <= i < |draws| && draws[i].id == k
  {
    if draws != [] {
      var v := NameVariables(Front(draws), ws);
      NameVariablesKeys(Front(draws), ws);
      NameXsKeys(v, Last(draws), ws);
      NameXsKeepsZ(v, Last(draws), ws);
      assert forall i :: 0 <= i < |draws| - 1 ==> draws[i] == Front(draws)[i];
      forall k | k in NameVariables(draws, ws).zBit ensures exists i :: 0 <= i < |draws| && draws[i].id == k {
        if k in v.zBit {
          var i :| 0 <= i < |draws| - 1 && Front(draws)[i].id == k;
          assert draws[i].id == k;
        } else {
          assert draws[|draws| - 1].id == k;
        }
      }
    }
  }

  // ---------------------------------------------------------------------------
  // Lookups and symbols are each other's inverse
  // ---------------------------------------------------------------------------

  ghost predicate LookupsNameSymbols(v: Variables) {
    && (forall k | k in v.xBit ::
          && v.xBit[k] < |v.symbols| && v.symbols[v.xBit[k]].XSymbol?
          && BitKey(v.symbols[v.xBit[k]].draw, v.symbols[v.xBit[k]].window) == k)
    && (forall k :: k in v.zBit ==> v.zBit[k] < |v.symbols| && v.symbols[v.zBit[k]] == ZSymbol(k))
  }

  ghost predicate SymbolsAreLookedUp(v: Variables) {
    forall p: nat :: p < |v.symbols| ==>
      match v.symbols[p]
      case XSymbol(a, b) => HasX(v, a, b) && XBit(v, a, b) == p
      case ZSymbol(a) => a in v.zBit && v.zBit[a] == p
      case SlackSymbol(_, _) => false
  }

  ghost predicate DrawKnown(draws: seq<Draw>, id: string) {
    exists i :: 0 <= i < |draws| && draws[i].id == id
  }

  ghost predicate WindowKnown(ws: seq<Window>, id: string) {
    exists j :: 0 <= j < |ws| && ws[j].id == id
  }

  ghost predicate SymbolsWithin(v: Variables, draws: seq<Draw>, ws: seq<Window>) {
    forall p: nat :: p < |v.symbols| ==>
      match v.symbols[p]
      case XSymbol(a, b) => DrawKnown(draws, a) && WindowKnown(ws, b)
      case ZSymbol(a) => DrawKnown(draws, a)
      case SlackSymbol(_, _) => false
  }

  ghost predicate Consistent(v: Variables) {
    LookupsNameSymbols(v) && SymbolsAreLookedUp(v)
  }

  lemma NameXConsistent(v: Variables, d: Draw, w: Window)
    requires Consistent(v) && (Live(d, w) ==> BitKey(d.id, w.id) !in v.xBit)
    ensures Consistent(NameX(v, d, w))
  {
    var r := NameX(v, d, w);
    if Live(d, w) {
      forall p: nat | p < |r.symbols| && r.symbols[p].XSymbol?
        ensures HasX(r, r.symbols[p].draw, r.symbols[p].window) && XBit(r, r.symbols[p].draw, r.symbols[p].window) == p
      {
        if p < |v.symbols| { assert r.symbols[p] == v.symbols[p]; }
      }
    }
  }

  lemma NameZConsistent(v: Variables, d: Draw)
    requires Consistent(v) && d.id !in v.zBit
    ensures Consistent(NameZ(v, d))
  {
    var r := NameZ(v, d);
    forall p: nat | p < |r.symbols| && p < |v.symbols| ensures r.symbols[p] == v.symbols[p] {
    }
  }

  lemma SameKeySamePair(draws: seq<Draw>, ws: seq<Window>, i: nat, j: nat, k: nat, l: nat)
    requires KeysDistinct(draws, ws) && i < |draws| && j < |ws| && k < |draws| && l < |ws|
    requires Live(draws[i], ws[j]) && BitKey(draws[i].id, ws[j].id) == BitKey(draws[k].id, ws[l].id)
    ensures i == k && j == l
  {
  }

  // the next key to be named has not been used yet
  lemma FreshKey(draws: seq<Draw>, I: nat, ws: seq<Window>, J: nat)
    requires I < |draws| && J < |ws| && KeysDistinct(draws, ws)
    ensures BitKey(draws[I].id, ws[J].id) !in LiveKeys(draws[..I], ws) + LiveKeysOf(draws[I], ws[..J])
  {
    var k := BitKey(draws[I].id, ws[J].id);
    if k in LiveKeys(draws[..I], ws) {
      var i, j := LiveKeysOrigin(draws[..I], ws, k);
      SameKeySamePair(draws, ws, i, j, I, J);
    } else if k in LiveKeysOf(draws[I], ws[..J]) {
      var j := LiveKeysOfOrigin(draws[I], ws[..J], k);
      SameKeySamePair(draws, ws, I, j, I, J);
    }
  }

  lemma {:induction false} NameXsConsistent(v: Variables, draws: seq<Draw>, I: nat, ws: seq<Window>, J: nat)
    requires I < |draws| && J <= |ws| && KeysDistinct(draws, ws)
    requires Consistent(v) && v.xBit.Keys == LiveKeys(draws[..I], ws)
    ensures Consistent(NameXs(v, draws[I], ws[..J]))
  {
    if J > 0 {
      NameXsConsistent(v, draws, I, ws, J - 1);
      assert Front(ws[..J]) == ws[..J - 1];
      NameXsKeys(v, draws[I], ws[..J - 1]);
      FreshKey(draws, I, ws, J - 1);
      NameXConsistent(NameXs(v, draws[I], ws[..J - 1]), draws[I], ws[J - 1]);
    }
  }

  lemma {:induction false} NameVariablesConsistent(draws: seq<Draw>, ws: seq<Window>, I: nat)
    requires I <= |draws| && KeysDistinct(draws, ws) && UniqueDraws(draws)
    ensures Consistent(NameVariables(draws[..I], ws))
  {
    if I > 0 {
      NameVariablesConsistent(draws, ws, I - 1);
      assert Front(draws[..I]) == draws[..I - 1];
      var v := NameVariables(draws[..I - 1], ws);
      NameVariablesKeys(draws[..I - 1], ws);
      NameXsConsistent(v, draws, I - 1, ws, |ws|);
      assert ws[..|ws|] == ws;
      NameXsKeepsZ(v, draws[I - 1], ws);
      NameZConsistent(NameXs(v, draws[I - 1], ws), draws[I - 1]);
    }
  }

  lemma {:induction false} NameXsWithin(v: Variables, d: Draw, J: nat, draws: seq<Draw>, ws: seq<Window>)
    requires J <= |ws| && SymbolsWithin(v, draws, ws) && DrawKnown(draws, d.id)
    ensures SymbolsWithin(NameXs(v, d, ws[..J]), draws, ws)
  {
    if J > 0 {
      NameXsWithin(v, d, J - 1, draws, ws);
      assert Front(ws[..J]) == ws[..J - 1];
      assert WindowKnown(ws, ws[J - 1].id);
    }
  }

  lemma {:induction false} NameVariablesWithin(draws: seq<Draw>, I: nat, ws: seq<Window>)
    requires I <= |draws|
    ensures SymbolsWithin(NameVariables(draws[..I], ws), draws, ws)
  {
    if I > 0 {
      NameVariablesWithin(draws, I - 1, ws);
      assert Front(draws[..I]) == draws[..I - 1];
      assert DrawKnown(draws, draws[I - 1].id);
      NameXsWithin(NameVariables(draws[..I - 1], ws), draws[I - 1], |ws|, draws, ws);
      assert ws[..|ws|] == ws;
    }
  }

  /** The table of a scenario with distinct keys. */
  ghost predicate Table(v: Variables, draws: seq<Draw>, ws: seq<Window>) {
    && UniqueDraws(draws) && UniqueWindows(ws) && KeysDistinct(draws, ws)
    && v.xBit.Keys == LiveKeys(draws, ws)
    && Named(v, draws)
    && Consistent(v)
    && SymbolsWithin(v, draws, ws)
  }

  /** Lookup and symbol table are each other's inverse, and the bits are exactly the live pairs and the deferrals. */
  lemma VariablesFormTable(draws: seq<Draw>, ws: seq<Window>)
    requires KeysDistinct(draws, ws) && UniqueDraws(draws) && UniqueWindows(ws)
    ensures Table(NameVariables(draws, ws), draws, ws)
  {
    NameVariablesConsistent(draws, ws, |draws|);
    NameVariablesKeys(draws, ws);
    NameVariablesWithin(draws, |draws|, ws);
    assert draws[..|draws|] == draws;
  }

  /** A pair has a bit exactly when it is live, and the bit it finds is named after it. */
  lemma LookupFindsPair(v: Variables, draws: seq<Draw>, ws: seq<Window>, i: nat, j: nat)
    requires Table(v, draws, ws) && i < |draws| && j < |ws|
    ensures HasX(v, draws[i].id, ws[j].id) <==> Live(draws[i], ws[j])
    ensures HasX(v, draws[i].id, ws[j].id) ==>
              var p := XBit(v, draws[i].id, ws[j].id);
              p < |v.symbols| && v.symbols[p] == XSymbol(draws[i].id, ws[j].id)
  {
    var k := BitKey(draws[i].id, ws[j].id);
    if Live(draws[i], ws[j]) { LiveKeysCover(draws, ws, i, j); }
    if k in v.xBit {
      var i', j' := LiveKeysOrigin(draws, ws, k);
      SameKeySamePair(draws, ws, i', j', i, j);
      var sym := v.symbols[v.xBit[k]];
      assert DrawKnown(draws, sym.draw) && WindowKnown(ws, sym.window);
      var a :| 0 <= a < |draws| && draws[a].id == sym.draw;
      var b :| 0 <= b < |ws| && ws[b].id == sym.window;
      SameKeySamePair(draws, ws, i', j', a, b);
    }
  }

  /** The bit a pair finds, if any, is named after the pair. */
  ghost predicate Resolves(v: Variables, d: Draw, w: Window) {
    && (HasX(v, d.id, w.id) <==> Live(d, w))
    && (HasX(v, d.id, w.id) ==>
          XBit(v, d.id, w.id) < |v.symbols| && v.symbols[XBit(v, d.id, w.id)] == XSymbol(d.id, w.id))
  }

  /** What the rest of the argument uses of a table. */
  ghost predicate Resolved(v: Variables, draws: seq<Draw>, ws: seq<Window>) {
    && Named(v, draws) && Consistent(v) && SymbolsWithin(v, draws, ws)
    && (forall i, j | 0 <= i < |draws| && 0 <= j < |ws| :: Resolves(v, draws[i], ws[j]))
  }

  lemma VariablesResolve(draws: seq<Draw>, ws: seq<Window>)
    requires KeysDistinct(draws, ws) && UniqueDraws(draws) && UniqueWindows(ws)
    ensures Resolved(NameVariables(draws, ws), draws, ws)
  {
    var v := NameVariables(draws, ws);
    VariablesFormTable(draws, ws);
    forall i, j | 0 <= i < |draws| && 0 <= j < |ws| ensures Resolves(v, draws[i], ws[j]) {
      LookupFindsPair(v, draws, ws, i, j);
    }
  }
}
