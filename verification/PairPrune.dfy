/**
 * Deciding whether pairwise couplings express a window cap exactly: a pruned
 * depth-first search over pairwise-fitting sets, cut off at a node budget.
 */
module PairPruning {
  import opened Sums

  const SEARCH_LIMIT: nat := 200_000

  datatype Verdict = Exact | Inexact | Exhausted

  datatype Outcome = Outcome(verdict: Verdict, nodes: nat)

  predicate Indices(s: seq<nat>, n: nat) {
    forall i :: 0 <= i < |s| ==> s[i] < n
  }

  predicate FitsWith(amounts: seq<int>, cap: int, chosen: seq<nat>, k: nat)
    requires Indices(chosen, |amounts|) && k < |amounts|
  {
    forall i :: 0 <= i < |chosen| ==> amounts[chosen[i]] + amounts[k] <= cap
  }

  /** The search below a chosen set: count the node, test it, then extend it. */
  function Node(amounts: seq<int>, cap: int, chosen: seq<nat>, start: nat, sum: int, nodes: nat): Outcome
    requires Indices(chosen, |amounts|) && start <= |amounts|
    decreases |amounts| - start, 1
  {
    if nodes + 1 > SEARCH_LIMIT then Outcome(Exhausted, nodes + 1)
    else if |chosen| >= 3 && sum > cap then Outcome(Inexact, nodes + 1)
    else From(amounts, cap, chosen, start, sum, nodes + 1)
  }

  /** The search over extensions by the candidates from `k` on. */
  function From(amounts: seq<int>, cap: int, chosen: seq<nat>, k: nat, sum: int, nodes: nat): Outcome
    requires Indices(chosen, |amounts|) && k <= |amounts|
    decreases |amounts| - k, 0
  {
    if k == |amounts| then Outcome(Exact, nodes)
    else if !FitsWith(amounts, cap, chosen, k) then From(amounts, cap, chosen, k + 1, sum, nodes)
    else
      var below := Node(amounts, cap, chosen + [k], k + 1, sum + amounts[k], nodes);
      if below.verdict != Exact then below else From(amounts, cap, chosen, k + 1, sum, below.nodes)
  }

  function PairPrune(amounts: seq<int>, cap: int): Verdict {
    Node(amounts, cap, [], 0, 0, 0).verdict
  }

  class PairPruneSearch {
    const amounts: seq<int>
    const cap: int
    var nodes: nat
    var chosen: seq<nat>

    constructor (amounts: seq<int>, cap: int)
      ensures this.amounts == amounts && this.cap == cap && nodes == 0 && chosen == []
    {
      this.amounts, this.cap, nodes, chosen := amounts, cap, 0, [];
    }

    /** Explores below `chosen` and hands it back as it was. */
    method Dfs(start: nat, sum: int) returns (r: Verdict)
      requires start <= |amounts| && Indices(chosen, |amounts|)
      modifies this
      ensures chosen == old(chosen)
      ensures Outcome(r, nodes) == Node(amounts, cap, old(chosen), start, sum, old(nodes))
      decreases |amounts| - start
    {
      nodes := nodes + 1;
      if nodes > SEARCH_LIMIT {
        return Exhausted;
      }
      if |chosen| >= 3 && sum > cap {
        return Inexact;
      }
      ghost var entry := nodes;
      for k := start to |amounts|
        invariant chosen == old(chosen)
        invariant From(amounts, cap, chosen, k, sum, nodes) == From(amounts, cap, chosen, start, sum, entry)
      {
        if FitsWith(amounts, cap, chosen, k) {
          chosen := chosen + [k];
          r := Dfs(k + 1, sum + amounts[k]);
          chosen := chosen[..|chosen| - 1];
          if r != Exact {
            return;
          }
        }
      }
      r := Exact;
    }
  }

  method PairPruneIsExact(amounts: seq<int>, cap: int) returns (r: Verdict)
    ensures r == PairPrune(amounts, cap)
  {
    var search := new PairPruneSearch(amounts, cap);
    r := search.Dfs(0, 0);
  }

  // ---------------------------------------------------------------------------
  // What the verdicts mean, on sets written as increasing index sequences
  // ---------------------------------------------------------------------------

  function Total(amounts: seq<int>, s: seq<nat>): int
    requires Indices(s, |amounts|)
  {
    if s == [] then 0 else Total(amounts, Front(s)) + amounts[Last(s)]
  }

  ghost predicate PairwiseFits(amounts: seq<int>, cap: int, s: seq<nat>)
    requires Indices(s, |amounts|)
  {
    forall i, j :: 0 <= i < j < |s| ==> amounts[s[i]] + amounts[s[j]] <= cap
  }

  ghost predicate Increasing(s: seq<nat>, from: nat, n: nat) {
    && (forall i :: 0 <= i < |s| ==> from <= s[i] < n)
    && (forall i, j :: 0 <= i < j < |s| ==> s[i] < s[j])
  }

  lemma {:induction false} NodeIsSound(amounts: seq<int>, cap: int, chosen: seq<nat>, start: nat, nodes: nat, ext: seq<nat>)
    requires Indices(chosen, |amounts|) && start <= |amounts| && Increasing(ext, start, |amounts|)
    requires PairwiseFits(amounts, cap, chosen + ext)
    requires Node(amounts, cap, chosen, start, Total(amounts, chosen), nodes).verdict == Exact
    ensures |chosen + ext| >= 3 ==> Total(amounts, chosen + ext) <= cap
    decreases |amounts| - start, 1
  {
    if ext == [] {
      assert chosen + ext == chosen;
    } else {
      FromIsSound(amounts, cap, chosen, start, nodes + 1, ext);
    }
  }

  lemma {:induction false} FromIsSound(amounts: seq<int>, cap: int, chosen: seq<nat>, k: nat, nodes: nat, ext: seq<nat>)
    requires Indices(chosen, |amounts|) && k <= |amounts| && Increasing(ext, k, |amounts|) && ext != []
    requires PairwiseFits(amounts, cap, chosen + ext)
    requires From(amounts, cap, chosen, k, Total(amounts, chosen), nodes).verdict == Exact
    ensures |chosen + ext| >= 3 ==> Total(amounts, chosen + ext) <= cap
    decreases |amounts| - k, 0
  {
    assert k <= ext[0] < |amounts|;
    var sum := Total(amounts, chosen);
    if ext[0] == k {
      var all := chosen + ext;
      forall i | 0 <= i < |chosen| ensures amounts[chosen[i]] + amounts[k] <= cap {
        assert all[i] == chosen[i] && all[|chosen|] == k;
      }
      assert Front(chosen + [k]) == chosen;
      assert all == (chosen + [k]) + ext[1..];
      NodeIsSound(amounts, cap, chosen + [k], k + 1, nodes, ext[1..]);
    } else if FitsWith(amounts, cap, chosen, k) {
      var below := Node(amounts, cap, chosen + [k], k + 1, sum + amounts[k], nodes);
      FromIsSound(amounts, cap, chosen, k + 1, below.nodes, ext);
    } else {
      FromIsSound(amounts, cap, chosen, k + 1, nodes, ext);
    }
  }

  ghost predicate Refutes(amounts: seq<int>, cap: int, s: seq<nat>) {
    Increasing(s, 0, |amounts|) && PairwiseFits(amounts, cap, s) && |s| >= 3 && Total(amounts, s) > cap
  }

  lemma ExtendFits(amounts: seq<int>, cap: int, chosen: seq<nat>, k: nat)
    requires k < |amounts| && Increasing(chosen, 0, k) && PairwiseFits(amounts, cap, chosen)
    requires FitsWith(amounts, cap, chosen, k)
    ensures Increasing(chosen + [k], 0, k + 1) && PairwiseFits(amounts, cap, chosen + [k])
    ensures Total(amounts, chosen + [k]) == Total(amounts, chosen) + amounts[k]
  {
    assert Front(chosen + [k]) == chosen;
  }

  lemma {:induction false} NodeFindsRefutation(amounts: seq<int>, cap: int, chosen: seq<nat>, start: nat, nodes: nat)
    returns (s: seq<nat>)
    requires start <= |amounts| && Increasing(chosen, 0, start) && PairwiseFits(amounts, cap, chosen)
    requires Node(amounts, cap, chosen, start, Total(amounts, chosen), nodes).verdict == Inexact
    ensures Refutes(amounts, cap, s)
    decreases |amounts| - start, 1
  {
    if |chosen| >= 3 && Total(amounts, chosen) > cap {
      s := chosen;
    } else {
      s := FromFindsRefutation(amounts, cap, chosen, start, nodes + 1);
    }
  }

  lemma {:induction false} FromFindsRefutation(amounts: seq<int>, cap: int, chosen: seq<nat>, k: nat, nodes: nat)
    returns (s: seq<nat>)
    requires k <= |amounts| && Increasing(chosen, 0, k) && PairwiseFits(amounts, cap, chosen)
    requires From(amounts, cap, chosen, k, Total(amounts, chosen), nodes).verdict == Inexact
    ensures Refutes(amounts, cap, s)
    decreases |amounts| - k, 0
  {
    hide PairwiseFits, FitsWith, Total, Node, Refutes;
    if !FitsWith(amounts, cap, chosen, k) {
      s := FromFindsRefutation(amounts, cap, chosen, k + 1, nodes);
    } else {
      var more := chosen + [k];
      ExtendFits(amounts, cap, chosen, k);
      var below := Node(amounts, cap, more, k + 1, Total(amounts, more), nodes);
      if below.verdict == Inexact {
        s := NodeFindsRefutation(amounts, cap, more, k + 1, nodes);
      } else {
        s := FromFindsRefutation(amounts, cap, chosen, k + 1, below.nodes);
      }
    }
  }

  /** The search gives up only when its budget is spent. */
  lemma {:induction false} ExhaustedOnlyPastLimit(amounts: seq<int>, cap: int, chosen: seq<nat>, start: nat, sum: int, nodes: nat)
    requires Indices(chosen, |amounts|) && start <= |amounts|
    ensures Node(amounts, cap, chosen, start, sum, nodes).verdict == Exhausted
        ==> Node(amounts, cap, chosen, start, sum, nodes).nodes > SEARCH_LIMIT
    decreases |amounts| - start, 1
  {
    FromExhaustedOnlyPastLimit(amounts, cap, chosen, start, sum, nodes + 1);
  }

  lemma {:induction false} FromExhaustedOnlyPastLimit(amounts: seq<int>, cap: int, chosen: seq<nat>, k: nat, sum: int, nodes: nat)
    requires Indices(chosen, |amounts|) && k <= |amounts|
    ensures From(amounts, cap, chosen, k, sum, nodes).verdict == Exhausted
        ==> From(amounts, cap, chosen, k, sum, nodes).nodes > SEARCH_LIMIT
    decreases |amounts| - k, 0
  {
    if k < |amounts| {
      if !FitsWith(amounts, cap, chosen, k) {
        FromExhaustedOnlyPastLimit(amounts, cap, chosen, k + 1, sum, nodes);
      } else {
        ExhaustedOnlyPastLimit(amounts, cap, chosen + [k], k + 1, sum + amounts[k], nodes);
        var below := Node(amounts, cap, chosen + [k], k + 1, sum + amounts[k], nodes);
        FromExhaustedOnlyPastLimit(amounts, cap, chosen, k + 1, sum, below.nodes);
      }
    }
  }

  // ---------------------------------------------------------------------------
  // The same, on selections of members
  // ---------------------------------------------------------------------------

  /** The load of the members switched on by `sel`. */
  function SelectedTotal(amounts: seq<int>, sel: seq<bool>): int
    requires |amounts| == |sel|
  {
    if amounts == [] then 0
    else SelectedTotal(Front(amounts), Front(sel)) + if Last(sel) then Last(amounts) else 0
  }

  ghost predicate SelectedPairsFit(amounts: seq<int>, cap: int, sel: seq<bool>)
    requires |amounts| == |sel|
  {
    forall i, j :: 0 <= i < j < |sel| && sel[i] && sel[j] ==> amounts[i] + amounts[j] <= cap
  }

  function Chosen(sel: seq<bool>): (s: seq<nat>)
    ensures Indices(s, |sel|)
  {
    if sel == [] then [] else Chosen(Front(sel)) + if Last(sel) then [|sel| - 1] else []
  }

  lemma {:induction false} ChosenLists(sel: seq<bool>)
    ensures Increasing(Chosen(sel), 0, |sel|)
    ensures forall i :: i in Chosen(sel) <==> 0 <= i < |sel| && sel[i]
  {
    if sel != [] { ChosenLists(Front(sel)); }
  }

  lemma {:induction false} TotalOfFront(amounts: seq<int>, s: seq<nat>)
    requires amounts != [] && Indices(s, |amounts| - 1)
    ensures Total(amounts, s) == Total(Front(amounts), s)
  {
    if s != [] { TotalOfFront(amounts, Front(s)); }
  }

  lemma {:induction false} ChosenTotal(amounts: seq<int>, sel: seq<bool>)
    requires |amounts| == |sel|
    ensures Total(amounts, Chosen(sel)) == SelectedTotal(amounts, sel)
  {
    if sel != [] {
      ChosenTotal(Front(amounts), Front(sel));
      TotalOfFront(amounts, Chosen(Front(sel)));
      if Last(sel) {
        assert Front(Chosen(sel)) == Chosen(Front(sel));
      } else {
        assert Chosen(sel) == Chosen(Front(sel));
      }
    }
  }

  lemma {:induction false} SelectedTotalCovers(amounts: seq<int>, sel: seq<bool>, i: nat, j: nat)
    requires |amounts| == |sel| && i < j < |sel| && sel[i] && sel[j]
    requires forall k :: 0 <= k < |amounts| ==> amounts[k] > 0
    ensures SelectedTotal(amounts, sel) >= amounts[i] + amounts[j]
  {
    if j < |sel| - 1 {
      SelectedTotalCovers(Front(amounts), Front(sel), i, j);
    } else {
      SelectedTotalCoversOne(Front(amounts), Front(sel), i);
    }
  }

  lemma {:induction false} SelectedTotalCoversOne(amounts: seq<int>, sel: seq<bool>, i: nat)
    requires |amounts| == |sel| && i < |sel| && sel[i]
    requires forall k :: 0 <= k < |amounts| ==> amounts[k] > 0
    ensures SelectedTotal(amounts, sel) >= amounts[i]
  {
    if i < |sel| - 1 {
      SelectedTotalCoversOne(Front(amounts), Front(sel), i);
    } else {
      SelectedTotalNonNegative(Front(amounts), Front(sel));
    }
  }

  lemma {:induction false} SelectedTotalNonNegative(amounts: seq<int>, sel: seq<bool>)
    requires |amounts| == |sel|
    requires forall k :: 0 <= k < |amounts| ==> amounts[k] > 0
    ensures SelectedTotal(amounts, sel) >= 0
  {
    if sel != [] { SelectedTotalNonNegative(Front(amounts), Front(sel)); }
  }

  /** `true` is right: for every subset of the members, the total fits exactly when every pair does. */
  lemma ExactMeansPairsDecide(amounts: seq<int>, cap: int, sel: seq<bool>)
    requires |amounts| == |sel| && PairPrune(amounts, cap) == Exact
    requires cap >= 0 && forall k :: 0 <= k < |amounts| ==> 0 < amounts[k] <= cap
    ensures SelectedTotal(amounts, sel) <= cap <==> SelectedPairsFit(amounts, cap, sel)
  {
    if SelectedTotal(amounts, sel) <= cap {
      forall i, j | 0 <= i < j < |sel| && sel[i] && sel[j] ensures amounts[i] + amounts[j] <= cap {
        SelectedTotalCovers(amounts, sel, i, j);
      }
    }
    if SelectedPairsFit(amounts, cap, sel) {
      var s := Chosen(sel);
      ChosenLists(sel);
      ChosenTotal(amounts, sel);
      forall i, j | 0 <= i < j < |s| ensures amounts[s[i]] + amounts[s[j]] <= cap {
        assert s[i] in s && s[j] in s;
      }
      FittingSetUnderCap(amounts, cap, s);
    }
  }

  lemma FittingSetUnderCap(amounts: seq<int>, cap: int, s: seq<nat>)
    requires PairPrune(amounts, cap) == Exact
    requires cap >= 0 && forall k :: 0 <= k < |amounts| ==> 0 < amounts[k] <= cap
    requires Increasing(s, 0, |amounts|) && PairwiseFits(amounts, cap, s)
    ensures Total(amounts, s) <= cap
  {
    hide From, Total;
    if |s| >= 3 {
      assert [] + s == s && Total(amounts, []) == 0 by { SmallTotals(amounts, []); }
      NodeIsSound(amounts, cap, [], 0, 0, s);
    } else {
      SmallTotals(amounts, s);
    }
  }

  lemma SmallTotals(amounts: seq<int>, s: seq<nat>)
    requires Indices(s, |amounts|)
    ensures |s| == 0 ==> Total(amounts, s) == 0
    ensures |s| == 1 ==> Total(amounts, s) == amounts[s[0]]
    ensures |s| == 2 ==> Total(amounts, s) == amounts[s[0]] + amounts[s[1]]
  {
    if |s| == 2 { assert Front(s) == [s[0]] && Front(Front(s)) == []; }
    if |s| == 1 { assert Front(s) == []; }
  }

  /** `false` is right: some pairwise-fitting set of three or more members is over the cap. */
  lemma InexactMeansPairsMislead(amounts: seq<int>, cap: int) returns (s: seq<nat>)
    requires PairPrune(amounts, cap) == Inexact
    ensures Refutes(amounts, cap, s)
  {
    s := NodeFindsRefutation(amounts, cap, [], 0, 0);
  }

  // ---------------------------------------------------------------------------
  // Exactly when the search says exact
  // ---------------------------------------------------------------------------

  function Prepended(k: nat, sets: set<seq<nat>>): set<seq<nat>> {
    set s | s in sets :: [k] + s
  }

  /** All increasing index sequences from `k` on that fit pairwise, among themselves and with `chosen`. */
  function Fitting(amounts: seq<int>, cap: int, chosen: seq<nat>, k: nat): set<seq<nat>>
    requires Indices(chosen, |amounts|) && k <= |amounts|
    decreases |amounts| - k
  {
    if k == |amounts| then {[]}
    else
      Fitting(amounts, cap, chosen, k + 1)
      + if FitsWith(amounts, cap, chosen, k) then Prepended(k, Fitting(amounts, cap, chosen + [k], k + 1)) else {}
  }

  ghost predicate FitsAlong(amounts: seq<int>, cap: int, chosen: seq<nat>, k: nat, s: seq<nat>)
    requires Indices(chosen, |amounts|)
  {
    Increasing(s, k, |amounts|) && PairwiseFits(amounts, cap, s)
    && forall i, j :: 0 <= i < |chosen| && 0 <= j < |s| ==> amounts[chosen[i]] + amounts[s[j]] <= cap
  }

  lemma FitsAlongStep(amounts: seq<int>, cap: int, chosen: seq<nat>, k: nat, s: seq<nat>)
    requires Indices(chosen, |amounts|) && k < |amounts|
    ensures s == [] || s[0] != k ==> (FitsAlong(amounts, cap, chosen, k, s) <==> FitsAlong(amounts, cap, chosen, k + 1, s))
    ensures s != [] && s[0] == k ==>
      (FitsAlong(amounts, cap, chosen, k, s) <==> FitsWith(amounts, cap, chosen, k) && FitsAlong(amounts, cap, chosen + [k], k + 1, s[1..]))
  {
    if s != [] && s[0] == k {
      var r, more := s[1..], chosen + [k];
      if FitsAlong(amounts, cap, chosen, k, s) {
        assert forall j :: 0 <= j < |r| ==> r[j] == s[j + 1];
        assert amounts[s[0]] == amounts[k];
        forall i | 0 <= i < |chosen| ensures amounts[chosen[i]] + amounts[k] <= cap { assert amounts[chosen[i]] + amounts[s[0]] <= cap; }
      }
      if FitsWith(amounts, cap, chosen, k) && FitsAlong(amounts, cap, more, k + 1, r) {
        assert forall j :: 1 <= j < |s| ==> s[j] == r[j - 1];
        assert more[|chosen|] == k;
        forall i, j | 0 <= i < j < |s| ensures amounts[s[i]] + amounts[s[j]] <= cap && s[i] < s[j] {
          if i == 0 { assert amounts[more[|chosen|]] + amounts[r[j - 1]] <= cap; }
        }
        forall i, j | 0 <= i < |chosen| && 0 <= j < |s| ensures amounts[chosen[i]] + amounts[s[j]] <= cap {
          if j > 0 { assert more[i] == chosen[i] && amounts[more[i]] + amounts[r[j - 1]] <= cap; }
        }
      }
    }
  }

  lemma {:induction false} FittingAre(amounts: seq<int>, cap: int, chosen: seq<nat>, k: nat, s: seq<nat>)
    requires Indices(chosen, |amounts|) && k <= |amounts|
    ensures s in Fitting(amounts, cap, chosen, k) <==> FitsAlong(amounts, cap, chosen, k, s)
    decreases |amounts| - k
  {
    hide FitsAlong, FitsWith;
    if k == |amounts| {
      FittingNothing(amounts, cap, chosen, k, s);
    } else {
      FitsAlongStep(amounts, cap, chosen, k, s);
      FittingAre(amounts, cap, chosen, k + 1, s);
      NoneStartBefore(amounts, cap, chosen, k + 1, s);
      if s != [] && s[0] == k {
        FittingAre(amounts, cap, chosen + [k], k + 1, s[1..]);
        assert s == [k] + s[1..];
      }
    }
  }

  lemma FittingNothing(amounts: seq<int>, cap: int, chosen: seq<nat>, k: nat, s: seq<nat>)
    requires Indices(chosen, |amounts|) && k == |amounts|
    ensures s == [] <==> FitsAlong(amounts, cap, chosen, k, s)
  {
    if s != [] { assert !Increasing(s, k, |amounts|) by { assert !(k <= s[0] < |amounts|); } }
  }

  lemma NoneStartBefore(amounts: seq<int>, cap: int, chosen: seq<nat>, k: nat, s: seq<nat>)
    requires Indices(chosen, |amounts|)
    ensures FitsAlong(amounts, cap, chosen, k, s) && s != [] ==> s[0] >= k
  {
  }

  lemma SameTail(k: nat, r: seq<nat>, s: seq<nat>)
    requires [k] + r == [k] + s
    ensures r == s
  {
    assert r == ([k] + r)[1..] && s == ([k] + s)[1..];
  }

  lemma {:induction false} PrependedSize(k: nat, sets: set<seq<nat>>)
    ensures |Prepended(k, sets)| == |sets|
  {
    if sets != {} {
      var s :| s in sets;
      PrependedSize(k, sets - {s});
      assert sets == (sets - {s}) + {s};
      assert Prepended(k, sets) == Prepended(k, sets - {s}) + {[k] + s};
      if [k] + s in Prepended(k, sets - {s}) {
        var r :| r in sets - {s} && [k] + r == [k] + s;
        SameTail(k, r, s);
      }
    }
  }

  /** The two ways to go on have no set in common, so their numbers add up. */
  lemma FittingSplits(amounts: seq<int>, cap: int, chosen: seq<nat>, k: nat)
    requires Indices(chosen, |amounts|) && k < |amounts|
    ensures |Fitting(amounts, cap, chosen, k)| == |Fitting(amounts, cap, chosen, k + 1)|
            + if FitsWith(amounts, cap, chosen, k) then |Fitting(amounts, cap, chosen + [k], k + 1)| else 0
  {
    hide FitsWith, FitsAlong;
    if FitsWith(amounts, cap, chosen, k) {
      var rest, taken := Fitting(amounts, cap, chosen, k + 1), Prepended(k, Fitting(amounts, cap, chosen + [k], k + 1));
      PrependedSize(k, Fitting(amounts, cap, chosen + [k], k + 1));
      forall s | s in rest ensures s !in taken {
        FittingAre(amounts, cap, chosen, k + 1, s);
        NoneStartBefore(amounts, cap, chosen, k + 1, s);
      }
      assert rest !! taken;
    }
  }

  /** The search visits each fitting set once: as many nodes as there are sets when it says exact, and never more than that. */
  lemma {:induction false} NodeCounts(amounts: seq<int>, cap: int, chosen: seq<nat>, start: nat, sum: int, nodes: nat)
    requires Indices(chosen, |amounts|) && start <= |amounts|
    ensures var r, n := Node(amounts, cap, chosen, start, sum, nodes), |Fitting(amounts, cap, chosen, start)|;
            r.nodes <= nodes + n && (r.verdict == Exact ==> r.nodes == nodes + n && r.nodes <= SEARCH_LIMIT)
    decreases |amounts| - start, 1
  {
    FittingNonEmpty(amounts, cap, chosen, start);
    hide Fitting, From;
    if nodes + 1 <= SEARCH_LIMIT { FromCounts(amounts, cap, chosen, start, sum, nodes + 1); }
  }

  lemma {:induction false} FittingHasEmpty(amounts: seq<int>, cap: int, chosen: seq<nat>, k: nat)
    requires Indices(chosen, |amounts|) && k <= |amounts|
    ensures [] in Fitting(amounts, cap, chosen, k)
    decreases |amounts| - k
  {
    if k < |amounts| {
      hide FitsWith, Prepended;
      FittingHasEmpty(amounts, cap, chosen, k + 1);
    }
  }

  lemma FittingNonEmpty(amounts: seq<int>, cap: int, chosen: seq<nat>, k: nat)
    requires Indices(chosen, |amounts|) && k <= |amounts|
    ensures |Fitting(amounts, cap, chosen, k)| >= 1
  {
    FittingHasEmpty(amounts, cap, chosen, k);
    hide Fitting;
    assert Fitting(amounts, cap, chosen, k) != {};
  }

  lemma FromEnds(amounts: seq<int>, cap: int, chosen: seq<nat>, k: nat, sum: int, nodes: nat)
    requires Indices(chosen, |amounts|) && k == |amounts|
    ensures From(amounts, cap, chosen, k, sum, nodes) == Outcome(Exact, nodes) && |Fitting(amounts, cap, chosen, k)| == 1
  {
    hide Node, FitsWith;
  }

  lemma FromUnfolds(amounts: seq<int>, cap: int, chosen: seq<nat>, k: nat, sum: int, nodes: nat)
    requires Indices(chosen, |amounts|) && k < |amounts|
    ensures !FitsWith(amounts, cap, chosen, k) ==>
      From(amounts, cap, chosen, k, sum, nodes) == From(amounts, cap, chosen, k + 1, sum, nodes)
    ensures FitsWith(amounts, cap, chosen, k) ==>
      var below := Node(amounts, cap, chosen + [k], k + 1, sum + amounts[k], nodes);
      From(amounts, cap, chosen, k, sum, nodes)
      == if below.verdict != Exact then below else From(amounts, cap, chosen, k + 1, sum, below.nodes)
  {
    hide Node, FitsWith;
  }

  lemma {:induction false} FromCounts(amounts: seq<int>, cap: int, chosen: seq<nat>, k: nat, sum: int, nodes: nat)
    requires Indices(chosen, |amounts|) && k <= |amounts| && nodes <= SEARCH_LIMIT
    ensures var r, n := From(amounts, cap, chosen, k, sum, nodes), |Fitting(amounts, cap, chosen, k)|;
            r.nodes + 1 <= nodes + n && (r.verdict == Exact ==> r.nodes + 1 == nodes + n && r.nodes <= SEARCH_LIMIT)
    decreases |amounts| - k, 0
  {
    hide FitsWith, Fitting, Node, From;
    if k == |amounts| {
      FromEnds(amounts, cap, chosen, k, sum, nodes);
    } else {
      FromUnfolds(amounts, cap, chosen, k, sum, nodes);
      FittingSplits(amounts, cap, chosen, k);
      FittingNonEmpty(amounts, cap, chosen, k + 1);
      if !FitsWith(amounts, cap, chosen, k) {
        FromCounts(amounts, cap, chosen, k + 1, sum, nodes);
      } else {
        NodeCounts(amounts, cap, chosen + [k], k + 1, sum + amounts[k], nodes);
        var below := Node(amounts, cap, chosen + [k], k + 1, sum + amounts[k], nodes);
        if below.verdict == Exact { FromCounts(amounts, cap, chosen, k + 1, sum, below.nodes); }
      }
    }
  }

  /** The pairwise-fitting sets of members. */
  function FittingSets(amounts: seq<int>, cap: int): (sets: set<seq<nat>>)
    ensures forall s :: s in sets <==> Increasing(s, 0, |amounts|) && PairwiseFits(amounts, cap, s)
  {
    forall s ensures s in Fitting(amounts, cap, [], 0) <==> Increasing(s, 0, |amounts|) && PairwiseFits(amounts, cap, s) {
      FittingAre(amounts, cap, [], 0, s);
    }
    Fitting(amounts, cap, [], 0)
  }

  ghost predicate Misled(amounts: seq<int>, cap: int) {
    exists s :: Refutes(amounts, cap, s)
  }

  /**
   * The search says exact if and only if there are at most as many pairwise-fitting
   * sets of members as the budget allows nodes, and each of them fits the cap.
   */
  lemma ExactExactly(amounts: seq<int>, cap: int)
    ensures PairPrune(amounts, cap) == Exact <==> |FittingSets(amounts, cap)| <= 200_000 && !Misled(amounts, cap)
  {
    NodeCounts(amounts, cap, [], 0, 0, 0);
    hide Node, From, Fitting, Refutes;
    match PairPrune(amounts, cap)
    case Exact =>
      if Misled(amounts, cap) {
        var s :| Refutes(amounts, cap, s);
        ExactRefutesNothing(amounts, cap, s);
      }
    case Inexact =>
      var s := InexactMeansPairsMislead(amounts, cap);
    case Exhausted =>
      ExhaustedOnlyPastLimit(amounts, cap, [], 0, 0, 0);
  }

  lemma ExactRefutesNothing(amounts: seq<int>, cap: int, s: seq<nat>)
    requires PairPrune(amounts, cap) == Exact
    ensures !Refutes(amounts, cap, s)
  {
    hide From;
    if Refutes(amounts, cap, s) {
      assert [] + s == s && Total(amounts, []) == 0 by { SmallTotals(amounts, []); }
      NodeIsSound(amounts, cap, [], 0, 0, s);
    }
  }
}
