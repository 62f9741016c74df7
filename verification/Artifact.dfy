/**
 * The artifact's matrices and the two energies evaluated on them: the symmetric
 * Q with halved couplings, and the Ising form over spins z = 1 - 2x.
 */
module Artifact {
  import opened Sums
  import opened QuadraticForm

  /** Off-diagonal entry of a symmetric matrix, i < j. */
  datatype SymEntry = SymEntry(i: nat, j: nat, value: real)

  datatype Qubo = Qubo(diag: seq<int>, offdiag: seq<SymEntry>, e0: int)

  datatype Ising = Ising(h: seq<real>, J: seq<SymEntry>, offset: real)

  // ---------------------------------------------------------------------------
  // The sorted, zero-free list of couplings
  // ---------------------------------------------------------------------------

  function OffdiagRow(f: Form, p: nat, k: nat): seq<SymEntry> {
    if k <= p + 1 then []
    else OffdiagRow(f, p, k - 1) +
         if Coefficient(f, p, k - 1) == 0 then [] else [SymEntry(p, k - 1, Coefficient(f, p, k - 1) as real / 2.0)]
  }

  function OffdiagRows(f: Form, p: nat, n: nat): seq<SymEntry> {
    if p == 0 then [] else OffdiagRows(f, p - 1, n) + OffdiagRow(f, p - 1, n)
  }

  function Offdiag(f: Form): seq<SymEntry> {
    OffdiagRows(f, |f.diag|, |f.diag|)
  }

  function Assemble(f: Form): Qubo {
    Qubo(f.diag, Offdiag(f), f.e0)
  }

  predicate Before(a: SymEntry, b: SymEntry) {
    a.i < b.i || (a.i == b.i && a.j < b.j)
  }

  ghost predicate StrictlySorted(s: seq<SymEntry>) {
    forall i, j :: 0 <= i < j < |s| ==> Before(s[i], s[j])
  }

  ghost predicate Lists(f: Form, e: SymEntry) {
    e.i < e.j < |f.diag| && Coefficient(f, e.i, e.j) != 0 && e.value == Coefficient(f, e.i, e.j) as real / 2.0
  }

  lemma {:induction false} OffdiagRowIs(f: Form, p: nat, k: nat)
    requires k <= |f.diag|
    ensures StrictlySorted(OffdiagRow(f, p, k))
    ensures forall e :: e in OffdiagRow(f, p, k) <==> Lists(f, e) && e.i == p && e.j < k
  {
    if k > p + 1 { OffdiagRowIs(f, p, k - 1); }
  }

  lemma {:induction false} OffdiagRowsIs(f: Form, p: nat)
    requires p <= |f.diag|
    ensures StrictlySorted(OffdiagRows(f, p, |f.diag|))
    ensures forall e :: e in OffdiagRows(f, p, |f.diag|) <==> Lists(f, e) && e.i < p
  {
    if p > 0 {
      OffdiagRowsIs(f, p - 1);
      OffdiagRowIs(f, p - 1, |f.diag|);
      var a, b := OffdiagRows(f, p - 1, |f.diag|), OffdiagRow(f, p - 1, |f.diag|);
      forall i, j | 0 <= i < j < |a + b| ensures Before((a + b)[i], (a + b)[j]) {
        if i < |a| <= j {
          assert a[i] in a && b[j - |a|] in b;
        }
      }
    }
  }

  /** The listed couplings are exactly the nonzero ones, once each, in (i, j) order. */
  lemma OffdiagIs(f: Form)
    ensures StrictlySorted(Offdiag(f))
    ensures forall e :: e in Offdiag(f) <==> Lists(f, e)
  {
    OffdiagRowsIs(f, |f.diag|);
  }

  lemma {:induction false} StrictlySortedIsUnique(a: seq<SymEntry>, b: seq<SymEntry>)
    requires StrictlySorted(a) && StrictlySorted(b)
    requires forall e :: e in a <==> e in b
    ensures a == b
  {
    assert b != [] ==> b[0] in a;
    assert a != [] ==> a[0] in b;
    if a != [] {
      assert a[0] == b[0];
      forall e ensures e in a[1..] <==> e in b[1..] {
        assert e in a[1..] <==> e in a && e != a[0];
        assert e in b[1..] <==> e in b && e != b[0];
      }
      StrictlySortedIsUnique(a[1..], b[1..]);
      assert a == [a[0]] + a[1..] && b == [b[0]] + b[1..];
    }
  }

  function InsertEntry(e: SymEntry, s: seq<SymEntry>): seq<SymEntry> {
    if s == [] || Before(e, s[0]) then [e] + s else [s[0]] + InsertEntry(e, s[1..])
  }

  function SortEntries(s: seq<SymEntry>): seq<SymEntry> {
    if s == [] then [] else InsertEntry(s[0], SortEntries(s[1..]))
  }

  ghost predicate DistinctPlaces(s: seq<SymEntry>) {
    forall i, j :: 0 <= i < j < |s| ==> (s[i].i, s[i].j) != (s[j].i, s[j].j)
  }

  lemma {:induction false} InsertEntrySorts(e: SymEntry, s: seq<SymEntry>)
    requires StrictlySorted(s) && forall k :: 0 <= k < |s| ==> (s[k].i, s[k].j) != (e.i, e.j)
    ensures StrictlySorted(InsertEntry(e, s))
    ensures forall d :: d in InsertEntry(e, s) <==> d in s || d == e
  {
    if s != [] && !Before(e, s[0]) {
      InsertEntrySorts(e, s[1..]);
      var t := InsertEntry(e, s[1..]);
      forall k | 0 <= k < |t| ensures Before(s[0], t[k]) {
        assert t[k] in t;
      }
      assert s == [s[0]] + s[1..];
    }
  }

  lemma {:induction false} SortEntriesSorts(s: seq<SymEntry>)
    requires DistinctPlaces(s)
    ensures StrictlySorted(SortEntries(s))
    ensures forall e :: e in SortEntries(s) <==> e in s
  {
    if s != [] {
      SortEntriesSorts(s[1..]);
      var t := SortEntries(s[1..]);
      forall k | 0 <= k < |t| ensures (t[k].i, t[k].j) != (s[0].i, s[0].j) {
        assert t[k] in s[1..];
      }
      InsertEntrySorts(s[0], t);
      assert s == [s[0]] + s[1..];
    }
  }

  // ---------------------------------------------------------------------------
  // The energies determine the matrix
  // ---------------------------------------------------------------------------

  /** The bitstring of width `n` with exactly the bits `p` and `q` on. */
  function OnlyBits(n: nat, p: nat, q: nat): Bits {
    seq(n, i => i == p || i == q)
  }

  lemma {:induction false} LinearEnergyOfOnly(diag: seq<int>, n: nat, p: nat, q: nat)
    requires p < n && q < n
    ensures LinearEnergy(diag, OnlyBits(n, p, q))
         == (if p < |diag| then diag[p] else 0) + (if q < |diag| && p != q then diag[q] else 0)
  {
    if diag != [] { LinearEnergyOfOnly(Front(diag), n, p, q); }
  }

  lemma {:induction false} RowEnergyOfOnly(f: Form, n: nat, p: nat, q: nat, row: nat, k: nat)
    requires p <= q < n
    ensures RowEnergy(f, OnlyBits(n, p, q), row, k) == if row == p && p < q < k then Coefficient(f, p, q) else 0
  {
    if k > row + 1 { RowEnergyOfOnly(f, n, p, q, row, k - 1); }
  }

  lemma {:induction false} PairEnergyOfOnly(f: Form, n: nat, p: nat, q: nat, row: nat, m: nat)
    requires p <= q < n <= m
    ensures PairEnergy(f, OnlyBits(n, p, q), row, m) == if p < q && p < row then Coefficient(f, p, q) else 0
  {
    if row > 0 {
      PairEnergyOfOnly(f, n, p, q, row - 1, m);
      RowEnergyOfOnly(f, n, p, q, row - 1, m);
    }
  }

  lemma {:induction false} PairEnergyOfNone(f: Form, row: nat, m: nat)
    ensures PairEnergy(f, [], row, m) == 0
  {
    if row > 0 {
      PairEnergyOfNone(f, row - 1, m);
      RowEnergyOfNone(f, row - 1, m);
    }
  }

  lemma {:induction false} RowEnergyOfNone(f: Form, p: nat, k: nat)
    ensures RowEnergy(f, [], p, k) == 0
  {
    if k > p + 1 { RowEnergyOfNone(f, p, k - 1); }
  }

  lemma {:induction false} LinearEnergyOfNone(diag: seq<int>)
    ensures LinearEnergy(diag, []) == 0
  {
    if diag != [] { LinearEnergyOfNone(Front(diag)); }
  }

  lemma CoefficientsFromEnergy(f: Form, p: nat, q: nat)
    requires p < q < |f.diag|
    ensures var n := |f.diag|;
            Energy(f, []) == f.e0 &&
            Energy(f, OnlyBits(n, p, p)) == f.e0 + f.diag[p] &&
            Energy(f, OnlyBits(n, p, q)) == f.e0 + f.diag[p] + f.diag[q] + Coefficient(f, p, q)
  {
    var n := |f.diag|;
    LinearEnergyOfNone(f.diag);
    PairEnergyOfNone(f, n, n);
    LinearEnergyOfOnly(f.diag, n, p, p);
    LinearEnergyOfOnly(f.diag, n, p, q);
    PairEnergyOfOnly(f, n, p, p, n, n);
    PairEnergyOfOnly(f, n, p, q, n, n);
  }

  /** Two forms that agree on the energy of every bitstring assemble to the same matrix. */
  lemma EnergyDeterminesMatrix(f: Form, g: Form)
    requires |f.diag| == |g.diag|
    requires forall x :: Energy(f, x) == Energy(g, x)
    ensures Assemble(f) == Assemble(g)
  {
    var n := |f.diag|;
    assert Energy(f, []) == Energy(g, []);
    LinearEnergyOfNone(f.diag);
    PairEnergyOfNone(f, n, n);
    LinearEnergyOfNone(g.diag);
    PairEnergyOfNone(g, n, n);
    forall p | 0 <= p < n ensures f.diag[p] == g.diag[p] {
      assert Energy(f, OnlyBits(n, p, p)) == Energy(g, OnlyBits(n, p, p));
      LinearEnergyOfOnly(f.diag, n, p, p);
      LinearEnergyOfOnly(g.diag, n, p, p);
      PairEnergyOfOnly(f, n, p, p, n, n);
      PairEnergyOfOnly(g, n, p, p, n, n);
    }
    assert f.diag == g.diag;
    OffdiagIs(f);
    OffdiagIs(g);
    forall e ensures e in Offdiag(f) <==> e in Offdiag(g) {
      if e.i < e.j < n {
        assert Energy(f, OnlyBits(n, e.i, e.j)) == Energy(g, OnlyBits(n, e.i, e.j));
        CoefficientsFromEnergy(f, e.i, e.j);
        CoefficientsFromEnergy(g, e.i, e.j);
      }
    }
    StrictlySortedIsUnique(Offdiag(f), Offdiag(g));
  }

  // ---------------------------------------------------------------------------
  // quboEnergy
  // ---------------------------------------------------------------------------

  function OffdiagEnergy(s: seq<SymEntry>, x: Bits): real {
    if s == [] then 0.0
    else OffdiagEnergy(Front(s), x) + if On(x, Last(s).i) && On(x, Last(s).j) then 2.0 * Last(s).value else 0.0
  }

  function QuboEnergy(q: Qubo, x: Bits): real {
    (q.e0 + LinearEnergy(q.diag, x)) as real + OffdiagEnergy(q.offdiag, x)
  }

  datatype Evaluation = Value(energy: real) | LengthMismatch

  method EvaluateQubo(q: Qubo, x: Bits) returns (r: Evaluation)
    requires forall k :: 0 <= k < |q.offdiag| ==> q.offdiag[k].i < |q.diag| && q.offdiag[k].j < |q.diag|
    ensures r == if |x| == |q.diag| then Value(QuboEnergy(q, x)) else LengthMismatch
  {
    if |x| != |q.diag| {
      return LengthMismatch;
    }
    var e := q.e0 as real;
    for i := 0 to |q.diag|
      invariant e == (q.e0 + LinearEnergy(q.diag[..i], x)) as real
    {
      assert Front(q.diag[..i + 1]) == q.diag[..i];
      if x[i] {
        e := e + q.diag[i] as real;
      }
    }
    assert q.diag[..|q.diag|] == q.diag;
    for k := 0 to |q.offdiag|
      invariant e == (q.e0 + LinearEnergy(q.diag, x)) as real + OffdiagEnergy(q.offdiag[..k], x)
    {
      assert Front(q.offdiag[..k + 1]) == q.offdiag[..k];
      var entry := q.offdiag[k];
      if x[entry.i] && x[entry.j] {
        e := e + 2.0 * entry.value;
      }
    }
    assert q.offdiag[..|q.offdiag|] == q.offdiag;
    r := Value(e);
  }

  lemma {:induction false} OffdiagEnergyConcat(a: seq<SymEntry>, b: seq<SymEntry>, x: Bits)
    ensures OffdiagEnergy(a + b, x) == OffdiagEnergy(a, x) + OffdiagEnergy(b, x)
  {
    if b == [] {
      assert a + b == a;
    } else {
      OffdiagEnergyConcat(a, Front(b), x);
      assert Front(a + b) == a + Front(b);
    }
  }

  lemma {:induction false} OffdiagRowEnergy(f: Form, x: Bits, p: nat, k: nat)
    ensures OffdiagEnergy(OffdiagRow(f, p, k), x) == RowEnergy(f, x, p, k) as real
  {
    if k > p + 1 {
      OffdiagRowEnergy(f, x, p, k - 1);
      var c := Coefficient(f, p, k - 1);
      if c != 0 {
        var e := SymEntry(p, k - 1, c as real / 2.0);
        OffdiagEnergyConcat(OffdiagRow(f, p, k - 1), [e], x);
        assert Front([e]) == [] && 2.0 * e.value == c as real;
      } else {
        assert OffdiagRow(f, p, k) == OffdiagRow(f, p, k - 1);
      }
    }
  }

  lemma {:induction false} OffdiagRowsEnergy(f: Form, x: Bits, p: nat, n: nat)
    ensures OffdiagEnergy(OffdiagRows(f, p, n), x) == PairEnergy(f, x, p, n) as real
  {
    if p > 0 {
      OffdiagRowsEnergy(f, x, p - 1, n);
      OffdiagRowEnergy(f, x, p - 1, n);
      OffdiagEnergyConcat(OffdiagRows(f, p - 1, n), OffdiagRow(f, p - 1, n), x);
    }
  }

  /** Halving, dropping zeros and sorting lose nothing: the artifact has the energy of the accumulated form. */
  lemma AssembleKeepsEnergy(f: Form, x: Bits)
    ensures QuboEnergy(Assemble(f), x) == Energy(f, x) as real
  {
    OffdiagRowsEnergy(f, x, |f.diag|, |f.diag|);
  }

  // ---------------------------------------------------------------------------
  // The Ising map
  // ---------------------------------------------------------------------------

  type Spins = seq<int>

  function BitsToSpins(x: Bits): (z: Spins)
    ensures |z| == |x|
  {
    seq(|x|, i requires 0 <= i < |x| => if x[i] then -1 else 1)
  }

  function HalfSum(diag: seq<int>): real {
    if diag == [] then 0.0 else HalfSum(Front(diag)) + Last(diag) as real / 2.0
  }

  function IsingStart(diag: seq<int>, e0: int): Ising {
    Ising(seq(|diag|, i requires 0 <= i < |diag| => -(diag[i] as real) / 2.0), [], e0 as real + HalfSum(diag))
  }

  function IsingAdd(m: Ising, e: SymEntry): (r: Ising)
    requires e.i < |m.h| && e.j < |m.h|
    ensures |r.h| == |m.h|
  {
    var h1 := m.h[e.i := m.h[e.i] - e.value / 2.0];
    var h2 := h1[e.j := h1[e.j] - e.value / 2.0];
    Ising(h2, m.J + [SymEntry(e.i, e.j, e.value / 2.0)], m.offset + e.value / 2.0)
  }

  predicate PlacesWithin(s: seq<SymEntry>, n: nat) {
    forall k :: 0 <= k < |s| ==> s[k].i < s[k].j < n
  }

  function IsingOfPrefix(q: Qubo, k: nat): (m: Ising)
    requires k <= |q.offdiag| && PlacesWithin(q.offdiag, |q.diag|)
    ensures |m.h| == |q.diag|
  {
    if k == 0 then IsingStart(q.diag, q.e0) else IsingAdd(IsingOfPrefix(q, k - 1), q.offdiag[k - 1])
  }

  function IsingOf(q: Qubo): Ising
    requires PlacesWithin(q.offdiag, |q.diag|)
  {
    IsingOfPrefix(q, |q.offdiag|)
  }

  function FieldEnergy(h: seq<real>, z: Spins): real
    requires |h| <= |z|
  {
    if h == [] then 0.0 else FieldEnergy(Front(h), z) + Last(h) * z[|h| - 1] as real
  }

  function CouplingEnergy(J: seq<SymEntry>, z: Spins): real
    requires PlacesWithin(J, |z|)
  {
    if J == [] then 0.0
    else CouplingEnergy(Front(J), z) + Last(J).value * z[Last(J).i] as real * z[Last(J).j] as real
  }

  function IsingEnergy(m: Ising, z: Spins): real
    requires |m.h| == |z| && PlacesWithin(m.J, |z|)
  {
    m.offset + FieldEnergy(m.h, z) + CouplingEnergy(m.J, z)
  }

  method EvaluateIsing(m: Ising, z: Spins) returns (r: Evaluation)
    requires PlacesWithin(m.J, |m.h|)
    ensures r == if |z| == |m.h| then Value(IsingEnergy(m, z)) else LengthMismatch
  {
    if |z| != |m.h| {
      return LengthMismatch;
    }
    var e := m.offset;
    for i := 0 to |m.h|
      invariant e == m.offset + FieldEnergy(m.h[..i], z)
    {
      assert Front(m.h[..i + 1]) == m.h[..i];
      e := e + m.h[i] * z[i] as real;
    }
    assert m.h[..|m.h|] == m.h;
    for k := 0 to |m.J|
      invariant e == m.offset + FieldEnergy(m.h, z) + CouplingEnergy(m.J[..k], z)
    {
      assert Front(m.J[..k + 1]) == m.J[..k];
      e := e + m.J[k].value * z[m.J[k].i] as real * z[m.J[k].j] as real;
    }
    assert m.J[..|m.J|] == m.J;
    r := Value(e);
  }

  lemma {:induction false} FieldEnergyUpdate(h: seq<real>, z: Spins, i: nat, v: real)
    requires i < |h| <= |z|
    ensures FieldEnergy(h[i := v], z) == FieldEnergy(h, z) + (v - h[i]) * z[i] as real
  {
    if i == |h| - 1 {
      assert Front(h[i := v]) == Front(h);
    } else {
      assert Front(h[i := v]) == Front(h)[i := v];
      FieldEnergyUpdate(Front(h), z, i, v);
    }
  }

  lemma {:induction false} StartEnergy(diag: seq<int>, h: seq<real>, x: Bits)
    requires |diag| == |h| <= |x|
    requires forall i :: 0 <= i < |diag| ==> h[i] == -(diag[i] as real) / 2.0
    ensures HalfSum(diag) + FieldEnergy(h, BitsToSpins(x)) == LinearEnergy(diag, x) as real
  {
    if diag != [] {
      StartEnergy(Front(diag), Front(h), x);
    }
  }

  lemma SpinProduct(v: real, a: bool, b: bool)
    ensures var s, t := if a then -1 else 1, if b then -1 else 1;
            v / 2.0 - v / 2.0 * s as real - v / 2.0 * t as real + v / 2.0 * s as real * t as real
            == if a && b then 2.0 * v else 0.0
  {
  }

  lemma IsingAddEnergy(m: Ising, e: SymEntry, x: Bits)
    requires |m.h| == |x| && PlacesWithin(m.J, |x|) && e.i < e.j < |x|
    ensures IsingEnergy(IsingAdd(m, e), BitsToSpins(x))
         == IsingEnergy(m, BitsToSpins(x)) + if On(x, e.i) && On(x, e.j) then 2.0 * e.value else 0.0
  {
    var z := BitsToSpins(x);
    var h1 := m.h[e.i := m.h[e.i] - e.value / 2.0];
    FieldEnergyUpdate(m.h, z, e.i, m.h[e.i] - e.value / 2.0);
    FieldEnergyUpdate(h1, z, e.j, h1[e.j] - e.value / 2.0);
    var J := m.J + [SymEntry(e.i, e.j, e.value / 2.0)];
    assert Front(J) == m.J;
    SpinProduct(e.value, x[e.i], x[e.j]);
  }

  lemma {:induction false} IsingOfPrefixEnergy(q: Qubo, k: nat, x: Bits)
    requires k <= |q.offdiag| && PlacesWithin(q.offdiag, |q.diag|) && |x| == |q.diag|
    ensures PlacesWithin(IsingOfPrefix(q, k).J, |x|)
    ensures IsingEnergy(IsingOfPrefix(q, k), BitsToSpins(x))
         == (q.e0 + LinearEnergy(q.diag, x)) as real + OffdiagEnergy(q.offdiag[..k], x)
  {
    if k == 0 {
      StartEnergy(q.diag, IsingStart(q.diag, q.e0).h, x);
    } else {
      IsingOfPrefixEnergy(q, k - 1, x);
      IsingAddEnergy(IsingOfPrefix(q, k - 1), q.offdiag[k - 1], x);
      assert Front(q.offdiag[..k]) == q.offdiag[..k - 1];
    }
  }

  /** The spin form has the energy of the bit form on every bitstring. */
  lemma IsingRefinesQubo(q: Qubo, x: Bits)
    requires PlacesWithin(q.offdiag, |q.diag|) && |x| == |q.diag|
    ensures PlacesWithin(IsingOf(q).J, |x|) && |IsingOf(q).h| == |x|
    ensures IsingEnergy(IsingOf(q), BitsToSpins(x)) == QuboEnergy(q, x)
  {
    IsingOfPrefixEnergy(q, |q.offdiag|, x);
    assert q.offdiag[..|q.offdiag|] == q.offdiag;
  }

  predicate Integral(v: real) {
    v == v.Floor as real
  }

  lemma IntegralOfInt(k: int)
    ensures Integral(k as real)
  {
  }

  lemma IntegralSum(a: real, b: real)
    requires Integral(a) && Integral(b)
    ensures Integral(a + b) && Integral(a - b)
  {
    IntegralOfInt(a.Floor + b.Floor);
    IntegralOfInt(a.Floor - b.Floor);
  }

  ghost predicate QuarterExact(m: Ising) {
    && Integral(4.0 * m.offset)
    && (forall i :: 0 <= i < |m.h| ==> Integral(4.0 * m.h[i]))
    && (forall k :: 0 <= k < |m.J| ==> Integral(4.0 * m.J[k].value))
  }

  lemma {:induction false} HalfSumExact(diag: seq<int>)
    ensures Integral(4.0 * HalfSum(diag))
  {
    if diag != [] {
      HalfSumExact(Front(diag));
      assert 4.0 * (Last(diag) as real / 2.0) == (2 * Last(diag)) as real;
      IntegralSum(4.0 * HalfSum(Front(diag)), (2 * Last(diag)) as real);
    }
  }

  lemma IsingStartExact(diag: seq<int>, e0: int)
    ensures QuarterExact(IsingStart(diag, e0))
  {
    HalfSumExact(diag);
    assert 4.0 * e0 as real == (4 * e0) as real;
    IntegralSum((4 * e0) as real, 4.0 * HalfSum(diag));
    var h := IsingStart(diag, e0).h;
    forall i | 0 <= i < |h| ensures Integral(4.0 * h[i]) {
      assert 4.0 * h[i] == (-2 * diag[i]) as real;
    }
  }

  lemma IsingAddExact(m: Ising, e: SymEntry)
    requires QuarterExact(m) && e.i < e.j < |m.h| && Integral(2.0 * e.value)
    ensures QuarterExact(IsingAdd(m, e))
  {
    var r := IsingAdd(m, e);
    assert 4.0 * (e.value / 2.0) == 2.0 * e.value;
    IntegralSum(4.0 * m.offset, 2.0 * e.value);
    forall i | 0 <= i < |r.h| ensures Integral(4.0 * r.h[i]) {
      IntegralSum(4.0 * m.h[i], 2.0 * e.value);
      if i == e.i || i == e.j {
        assert 4.0 * r.h[i] == 4.0 * m.h[i] - 2.0 * e.value;
      }
    }
  }

  /** Every h, J and offset of a compiled form is a whole number of quarters. */
  lemma {:induction false} IsingIsQuarterExact(q: Qubo, k: nat)
    requires k <= |q.offdiag| && PlacesWithin(q.offdiag, |q.diag|)
    requires forall i :: 0 <= i < |q.offdiag| ==> Integral(2.0 * q.offdiag[i].value)
    ensures QuarterExact(IsingOfPrefix(q, k))
  {
    if k == 0 {
      IsingStartExact(q.diag, q.e0);
    } else {
      IsingIsQuarterExact(q, k - 1);
      IsingAddExact(IsingOfPrefix(q, k - 1), q.offdiag[k - 1]);
    }
  }

  /** An assembled form satisfies what the Ising map asks of its couplings. */
  lemma AssembledPlaces(f: Form)
    ensures PlacesWithin(Assemble(f).offdiag, |f.diag|)
    ensures forall i :: 0 <= i < |Assemble(f).offdiag| ==> Integral(2.0 * Assemble(f).offdiag[i].value)
  {
    OffdiagIs(f);
    var s := Offdiag(f);
    forall i | 0 <= i < |s| ensures s[i].i < s[i].j < |f.diag| && Integral(2.0 * s[i].value) {
      assert s[i] in s;
      assert 2.0 * s[i].value == Coefficient(f, s[i].i, s[i].j) as real;
    }
  }
}
