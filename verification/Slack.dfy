/** Binary slack for a window cap: the gcd unit, the bit count and the exactness of the encoding. */
module Slack {
  import opened Sums
  import opened PairPruning

  function Gcd(a: nat, b: nat): nat
    decreases b
  {
    if b == 0 then a else Gcd(b, a % b)
  }

  method ComputeGcd(a: nat, b: nat) returns (g: nat)
    ensures g == Gcd(a, b)
  {
    var u, v := a, b;
    while v != 0
      invariant Gcd(u, v) == Gcd(a, b)
      decreases v
    {
      u, v := v, u % v;
    }
    g := u;
  }

  predicate Divides(d: nat, a: nat) {
    d > 0 && a % d == 0
  }

  lemma MulOrder(a: int, b: int, d: int)
    requires d > 0 && a <= b
    ensures a * d <= b * d
  {
  }

  lemma SmallMultiple(k: int, d: int)
    requires d > 0 && -d < k * d < d
    ensures k == 0
  {
    if k >= 1 { MulOrder(1, k, d); }
    if k <= -1 { MulOrder(k, -1, d); }
  }

  lemma QuotientUnique(v: int, d: nat, q: int, m: int)
    requires d > 0 && v == q * d + m && 0 <= m < d
    ensures v / d == q && v % d == m
  {
    var q', m' := v / d, v % d;
    assert v == q' * d + m' && 0 <= m' < d;
    assert (q' - q) * d == m - m';
    SmallMultiple(q' - q, d);
  }

  lemma MultipleMod(d: nat, k: int, r: int)
    requires d > 0
    ensures (k * d + r) % d == r % d
  {
    var q, m := r / d, r % d;
    assert r == q * d + m;
    assert k * d + r == (k + q) * d + m;
    QuotientUnique(k * d + r, d, k + q, m);
  }

  lemma Quotient(d: nat, a: nat)
    requires Divides(d, a)
    ensures (a / d) * d == a
  {
  }

  lemma MulAssoc(a: int, b: int, c: int)
    ensures a * (b * c) == (a * b) * c
  {
  }

  // a divisor of b and of r divides k * b + r
  lemma DividesCombination(g: nat, k: int, b: nat, r: nat, a: nat)
    requires Divides(g, b) && Divides(g, r) && a == k * b + r
    ensures Divides(g, a)
  {
    Quotient(g, b);
    MulAssoc(k, b / g, g);
    MultipleMod(g, k * (b / g), r);
  }

  lemma {:induction false} GcdDividesBoth(a: nat, b: nat)
    requires a > 0 || b > 0
    ensures Divides(Gcd(a, b), a) && Divides(Gcd(a, b), b)
    decreases b
  {
    if b != 0 {
      GcdDividesBoth(b, a % b);
      DividesCombination(Gcd(a, b), a / b, b, a % b, a);
    } else {
      assert a % a == 0;
    }
  }

  lemma RemainderDivisible(u: nat, a: nat, b: nat)
    requires Divides(u, a) && Divides(u, b) && b > 0
    ensures Divides(u, a % b)
  {
    var q, k := a / b, b / u;
    Quotient(u, b);
    assert a % b == a - q * b;
    MulAssoc(q, k, u);
    assert a % b == (-(q * k)) * u + a;
    MultipleMod(u, -(q * k), a);
  }

  lemma {:induction false} GcdIsGreatest(a: nat, b: nat, u: nat)
    requires Divides(u, a) && Divides(u, b)
    ensures Divides(u, Gcd(a, b))
    decreases b
  {
    if b != 0 {
      RemainderDivisible(u, a, b);
      GcdIsGreatest(b, a % b, u);
    }
  }

  /** The unit of a window: the gcd of its cap and its members' amounts. */
  function Unit(amounts: seq<nat>, cap: nat): nat {
    if amounts == [] then cap else Gcd(Unit(Front(amounts), cap), Last(amounts))
  }

  ghost predicate CommonDivisor(u: nat, amounts: seq<nat>, cap: nat) {
    Divides(u, cap) && forall i :: 0 <= i < |amounts| ==> Divides(u, amounts[i])
  }

  lemma DividesTransitive(u: nat, v: nat, a: nat)
    requires Divides(u, v) && Divides(v, a)
    ensures Divides(u, a)
  {
    Quotient(u, v);
    Quotient(v, a);
    MulAssoc(a / v, v / u, u);
    MultipleMod(u, (a / v) * (v / u), 0);
  }

  lemma {:induction false} UnitDivides(amounts: seq<nat>, cap: nat)
    requires cap > 0
    ensures CommonDivisor(Unit(amounts, cap), amounts, cap)
  {
    if amounts != [] {
      var before, u := Unit(Front(amounts), cap), Unit(amounts, cap);
      UnitDivides(Front(amounts), cap);
      GcdDividesBoth(before, Last(amounts));
      DividesTransitive(u, before, cap);
      forall i | 0 <= i < |amounts| ensures Divides(u, amounts[i]) {
        if i < |amounts| - 1 {
          assert Front(amounts)[i] == amounts[i];
          DividesTransitive(u, before, amounts[i]);
        }
      }
    } else {
      assert cap % cap == 0;
    }
  }

  lemma {:induction false} UnitIsGreatest(amounts: seq<nat>, cap: nat, u: nat)
    requires CommonDivisor(u, amounts, cap)
    ensures Divides(u, Unit(amounts, cap))
  {
    if amounts != [] {
      UnitIsGreatest(Front(amounts), cap, u);
      GcdIsGreatest(Unit(Front(amounts), cap), Last(amounts), u);
    }
  }

  function Pow2(k: nat): nat {
    if k == 0 then 1 else 2 * Pow2(k - 1)
  }

  /** The number of digits `n` has in base 2. */
  function BitLength(n: nat): nat {
    if n < 2 then 1 else 1 + BitLength(n / 2)
  }

  lemma {:induction false} BitLengthBounds(n: nat)
    ensures n < Pow2(BitLength(n))
    ensures n > 0 ==> Pow2(BitLength(n) - 1) <= n
  {
    if n >= 2 {
      BitLengthBounds(n / 2);
      assert Pow2(BitLength(n) - 1) == 2 * Pow2(BitLength(n / 2) - 1);
    }
  }

  lemma {:induction false} BitLengthMonotone(m: nat, n: nat)
    requires m <= n
    ensures BitLength(m) <= BitLength(n)
  {
    if m >= 2 { BitLengthMonotone(m / 2, n / 2); }
  }

  /** Slack bit b weighs 2^b. */
  function SlackValue(s: seq<bool>): nat {
    if s == [] then 0 else SlackValue(Front(s)) + if Last(s) then Pow2(|s| - 1) else 0
  }

  function SlackDigits(v: nat, k: nat): (s: seq<bool>)
    requires v < Pow2(k)
    ensures |s| == k && SlackValue(s) == v
  {
    if k == 0 then []
    else if v < Pow2(k - 1) then SlackDigits(v, k - 1) + [false]
    else SlackDigits(v - Pow2(k - 1), k - 1) + [true]
  }

  lemma {:induction false} SlackValueBound(s: seq<bool>)
    ensures SlackValue(s) < Pow2(|s|)
  {
    if s != [] { SlackValueBound(Front(s)); }
  }

  lemma {:induction false} SlackValueInjective(s: seq<bool>, t: seq<bool>)
    requires |s| == |t| && SlackValue(s) == SlackValue(t)
    ensures s == t
  {
    if s != [] {
      SlackValueBound(Front(s));
      SlackValueBound(Front(t));
      SlackValueInjective(Front(s), Front(t));
      assert s == Front(s) + [Last(s)] && t == Front(t) + [Last(t)];
    }
  }

  function Scaled(amounts: seq<nat>, unit: nat): (r: seq<int>)
    requires unit > 0
    ensures |r| == |amounts|
  {
    seq(|amounts|, i requires 0 <= i < |amounts| => amounts[i] / unit)
  }

  lemma {:induction false} ScaledTotal(amounts: seq<nat>, unit: nat, sel: seq<bool>)
    requires |amounts| == |sel| && unit > 0
    requires forall i :: 0 <= i < |amounts| ==> Divides(unit, amounts[i])
    ensures SelectedTotal(Scaled(amounts, unit), sel) * unit == SelectedTotal(amounts, sel)
  {
    if amounts != [] {
      ScaledTotal(Front(amounts), unit, Front(sel));
      assert Front(Scaled(amounts, unit)) == Scaled(Front(amounts), unit);
      var a := Last(amounts);
      assert (a / unit) * unit == a;
      assert Divides(unit, amounts[|amounts| - 1]);
      var t := SelectedTotal(Scaled(Front(amounts), unit), Front(sel));
      assert (t + a / unit) * unit == t * unit + (a / unit) * unit;
    }
  }

  /** The residual the slack penalty squares: load in units plus slack minus cap in units. */
  function Residual(amounts: seq<nat>, cap: nat, sel: seq<bool>, s: seq<bool>): int
    requires |amounts| == |sel| && cap > 0
  {
    UnitDivides(amounts, cap);
    var unit := Unit(amounts, cap);
    SelectedTotal(Scaled(amounts, unit), sel) + SlackValue(s) - cap / unit
  }

  function SlackWidth(amounts: seq<nat>, cap: nat): nat
    requires cap > 0
  {
    UnitDivides(amounts, cap);
    BitLength(cap / Unit(amounts, cap))
  }

  // the load in units compares with the cap in units as the minor units do
  lemma UnitsCompare(load: int, capUnits: int, unit: int, total: int, cap: int)
    requires unit > 0 && load * unit == total && capUnits * unit == cap
    ensures load <= capUnits <==> total <= cap
    ensures load >= 0 <==> total >= 0
  {
    if load <= capUnits { MulOrder(load, capUnits, unit); } else { MulOrder(capUnits + 1, load, unit); }
    if load >= 0 { MulOrder(0, load, unit); } else { MulOrder(load, -1, unit); }
  }

  lemma LoadInUnits(amounts: seq<nat>, cap: nat, sel: seq<bool>)
    requires |amounts| == |sel| && cap > 0
    ensures Unit(amounts, cap) > 0
    ensures var load, capUnits := SelectedTotal(Scaled(amounts, Unit(amounts, cap)), sel), cap / Unit(amounts, cap);
            (load <= capUnits <==> SelectedTotal(amounts, sel) <= cap) && (load >= 0 <==> SelectedTotal(amounts, sel) >= 0)
  {
    UnitDivides(amounts, cap);
    var unit := Unit(amounts, cap);
    ScaledTotal(amounts, unit, sel);
    Quotient(unit, cap);
    UnitsCompare(SelectedTotal(Scaled(amounts, unit), sel), cap / unit, unit, SelectedTotal(amounts, sel), cap);
  }

  /** The slack that fills a selection up to the cap. */
  function FillingSlack(amounts: seq<nat>, cap: nat, sel: seq<bool>): (s: seq<bool>)
    requires |amounts| == |sel| && cap > 0
    requires 0 <= SelectedTotal(amounts, sel) <= cap
    ensures |s| == SlackWidth(amounts, cap)
    ensures Residual(amounts, cap, sel, s) == 0
  {
    LoadInUnits(amounts, cap, sel);
    var unit := Unit(amounts, cap);
    BitLengthBounds(cap / unit);
    SlackDigits(cap / unit - SelectedTotal(Scaled(amounts, unit), sel), BitLength(cap / unit))
  }

  /** A selection within the cap, in full minor units, has exactly one slack with zero residual. */
  lemma SlackExact(amounts: seq<nat>, cap: nat, sel: seq<bool>, s: seq<bool>)
    requires |amounts| == |sel| && cap > 0 && |s| == SlackWidth(amounts, cap)
    requires 0 <= SelectedTotal(amounts, sel) <= cap
    ensures Residual(amounts, cap, sel, s) == 0 <==> s == FillingSlack(amounts, cap, sel)
  {
    if Residual(amounts, cap, sel, s) == 0 {
      SlackValueInjective(s, FillingSlack(amounts, cap, sel));
    }
  }

  /** A selection over the cap leaves a residual of at least one unit whatever the slack. */
  lemma OverCapResidual(amounts: seq<nat>, cap: nat, sel: seq<bool>, s: seq<bool>)
    requires |amounts| == |sel| && cap > 0 && SelectedTotal(amounts, sel) > cap
    ensures Residual(amounts, cap, sel, s) >= 1
  {
    LoadInUnits(amounts, cap, sel);
  }

  // a larger divisor leaves a smaller quotient
  lemma QuotientOrder(u: nat, v: nat, a: nat)
    requires Divides(u, a) && Divides(v, a) && u <= v
    ensures a / v <= a / u
  {
    Quotient(u, a);
    Quotient(v, a);
    var p, q := a / v, a / u;
    if p > q {
      MulOrder(q + 1, p, u);
      MulOrder(u, v, p);
    }
  }

  lemma DivisorBound(u: nat, v: nat)
    requires Divides(u, v) && v > 0
    ensures u <= v
  {
    Quotient(u, v);
    if v / u <= 0 { MulOrder(v / u, 0, u); }
    MulOrder(1, v / u, u);
  }

  /** No other common divisor of the amounts and the cap needs fewer slack bits. */
  lemma UnitNeedsFewestBits(amounts: seq<nat>, cap: nat, u: nat)
    requires cap > 0 && CommonDivisor(u, amounts, cap)
    ensures SlackWidth(amounts, cap) <= BitLength(cap / u)
  {
    UnitDivides(amounts, cap);
    UnitIsGreatest(amounts, cap, u);
    DivisorBound(u, Unit(amounts, cap));
    QuotientOrder(u, Unit(amounts, cap), cap);
    BitLengthMonotone(cap / Unit(amounts, cap), cap / u);
  }
}
