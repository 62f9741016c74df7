/** Library behaviour the repository relies on: code-unit string order and the stable `Array.sort`. */
module Ordering {

  predicate StringLess(a: string, b: string) {
    if b == "" then false
    else if a == "" then true
    else a[0] < b[0] || (a[0] == b[0] && StringLess(a[1..], b[1..]))
  }

  lemma {:induction false} StringLessIrreflexive(a: string)
    ensures !StringLess(a, a)
  {
    if a != "" { StringLessIrreflexive(a[1..]); }
  }

  lemma {:induction false} StringLessTransitive(a: string, b: string, c: string)
    requires StringLess(a, b) && StringLess(b, c)
    ensures StringLess(a, c)
  {
    if a != "" && a[0] == b[0] && b[0] == c[0] {
      StringLessTransitive(a[1..], b[1..], c[1..]);
    }
  }

  lemma {:induction false} StringLessTotal(a: string, b: string)
    ensures StringLess(a, b) || StringLess(b, a) || a == b
  {
    if a != "" && b != "" && a[0] == b[0] {
      StringLessTotal(a[1..], b[1..]);
      assert a == [a[0]] + a[1..] && b == [b[0]] + b[1..];
    }
  }

  // not-less is transitive: the comparator induces a total preorder on keys
  lemma NotLessTransitive(a: string, b: string, c: string)
    requires !StringLess(b, a) && !StringLess(c, b)
    ensures !StringLess(c, a)
  {
    if StringLess(c, a) {
      StringLessTotal(b, a);
      if a == b {
      } else {
        StringLessTransitive(c, a, b);
      }
    }
  }

  /** `a` and `b` agree on their first `k` characters, and there `a` ends or has the smaller character. */
  predicate SplitsAt(a: string, b: string, k: nat) {
    k <= |a| && k < |b| && a[..k] == b[..k] && (k == |a| || a[k] < b[k])
  }

  /** `a` is a proper prefix of `b`, or smaller at the first character in which they differ. */
  ghost predicate ComesBefore(a: string, b: string) {
    exists k: nat :: SplitsAt(a, b, k)
  }

  lemma {:induction false} StringLessSplits(a: string, b: string) returns (k: nat)
    requires StringLess(a, b)
    ensures SplitsAt(a, b, k)
  {
    if a != "" && a[0] == b[0] {
      var j := StringLessSplits(a[1..], b[1..]);
      k := j + 1;
      assert a[..k] == [a[0]] + a[1..][..j] && b[..k] == [b[0]] + b[1..][..j];
    } else {
      k := 0;
    }
  }

  lemma {:induction false} SplitMeansLess(a: string, b: string, k: nat)
    requires SplitsAt(a, b, k)
    ensures StringLess(a, b)
  {
    if k > 0 {
      assert a[0] == a[..k][0] == b[..k][0] == b[0];
      assert a[1..][..k - 1] == a[..k][1..] && b[1..][..k - 1] == b[..k][1..];
      SplitMeansLess(a[1..], b[1..], k - 1);
    }
  }

  /** The order is that of the first differing code unit, a proper prefix coming first. */
  lemma StringLessExactly(a: string, b: string)
    ensures StringLess(a, b) <==> ComesBefore(a, b)
  {
    if StringLess(a, b) {
      var k := StringLessSplits(a, b);
    }
    if ComesBefore(a, b) {
      var k: nat :| SplitsAt(a, b, k);
      SplitMeansLess(a, b, k);
    }
  }

  /** Whatever comes before and after, the smaller of two different code units decides, and so does the shorter of a text and its extension. */
  lemma FirstDifferenceDecides(p: string, c: char, d: char, s: string, t: string)
    ensures c < d ==> StringLess(p + [c] + s, p + [d] + t) && !StringLess(p + [d] + t, p + [c] + s)
    ensures StringLess(p, p + [c] + s) && !StringLess(p + [c] + s, p)
  {
    var a, b := p + [c] + s, p + [d] + t;
    assert a[..|p|] == p && b[..|p|] == p && a[|p|] == c && b[|p|] == d;
    if c < d {
      SplitMeansLess(a, b, |p|);
      NotBoth(a, b);
    }
    assert SplitsAt(p, a, |p|);
    SplitMeansLess(p, a, |p|);
    NotBoth(p, a);
  }

  lemma NotBoth(a: string, b: string)
    requires StringLess(a, b)
    ensures !StringLess(b, a)
  {
    if StringLess(b, a) {
      StringLessTransitive(a, b, a);
      StringLessIrreflexive(a);
    }
  }

  /** Inserts `x` in front of the first element whose key is not smaller. */
  function Insert<T>(x: T, s: seq<T>, key: T -> string): seq<T> {
    if s == [] || !StringLess(key(s[0]), key(x)) then [x] + s
    else [s[0]] + Insert(x, s[1..], key)
  }

  /** The stable sort by key. */
  function SortBy<T>(s: seq<T>, key: T -> string): seq<T> {
    if s == [] then [] else Insert(s[0], SortBy(s[1..], key), key)
  }

  ghost predicate SortedBy<T>(s: seq<T>, key: T -> string) {
    forall i, j :: 0 <= i < j < |s| ==> !StringLess(key(s[j]), key(s[i]))
  }

  /** Every key in `s` satisfies `p`. */
  ghost predicate Keys<T>(s: seq<T>, key: T -> string, p: string -> bool) {
    forall i :: 0 <= i < |s| ==> p(key(s[i]))
  }

  lemma {:induction false} InsertKeys<T>(x: T, s: seq<T>, key: T -> string, p: string -> bool)
    requires Keys(s, key, p) && p(key(x))
    ensures Keys(Insert(x, s, key), key, p)
  {
    if s != [] && StringLess(key(s[0]), key(x)) {
      InsertKeys(x, s[1..], key, p);
    }
  }

  lemma {:induction false} InsertAdds<T>(x: T, s: seq<T>, key: T -> string)
    ensures multiset(Insert(x, s, key)) == multiset(s) + multiset{x}
  {
    if s != [] && StringLess(key(s[0]), key(x)) {
      InsertAdds(x, s[1..], key);
      assert s == [s[0]] + s[1..];
    }
  }

  lemma {:induction false} InsertKeepsOrder<T>(x: T, s: seq<T>, key: T -> string)
    requires SortedBy(s, key)
    ensures SortedBy(Insert(x, s, key), key)
  {
    if s == [] {
    } else if !StringLess(key(s[0]), key(x)) {
      forall j | 0 <= j < |s| ensures !StringLess(key(s[j]), key(x)) {
        if j > 0 { NotLessTransitive(key(x), key(s[0]), key(s[j])); }
      }
    } else {
      InsertKeepsOrder(x, s[1..], key);
      if StringLess(key(x), key(s[0])) {
        StringLessTransitive(key(x), key(s[0]), key(x));
        StringLessIrreflexive(key(x));
      }
      InsertKeys(x, s[1..], key, k => !StringLess(k, key(s[0])));
    }
  }

  lemma {:induction false} SortBySorts<T>(s: seq<T>, key: T -> string)
    ensures SortedBy(SortBy(s, key), key)
    ensures multiset(SortBy(s, key)) == multiset(s)
    ensures |SortBy(s, key)| == |s|
  {
    if s != [] {
      SortBySorts(s[1..], key);
      InsertKeepsOrder(s[0], SortBy(s[1..], key), key);
      InsertAdds(s[0], SortBy(s[1..], key), key);
      assert s == [s[0]] + s[1..];
    }
    assert |multiset(SortBy(s, key))| == |multiset(s)|;
  }

  /** Equal keys mean equal elements among the elements of `s`. */
  ghost predicate KeyDetermines<T(!new)>(s: seq<T>, key: T -> string) {
    forall i, j :: 0 <= i < |s| && 0 <= j < |s| && key(s[i]) == key(s[j]) ==> s[i] == s[j]
  }

  lemma SortedHeadsAgree<T(!new)>(a: seq<T>, b: seq<T>, key: T -> string)
    requires a != [] && b != []
    requires SortedBy(a, key) && SortedBy(b, key) && multiset(a) == multiset(b)
    requires KeyDetermines(a, key)
    ensures a[0] == b[0]
  {
    assert a[0] in multiset(b) && b[0] in multiset(a);
    var j :| 0 <= j < |b| && b[j] == a[0];
    var i :| 0 <= i < |a| && a[i] == b[0];
    StringLessIrreflexive(key(a[0]));
    StringLessTotal(key(a[0]), key(b[0]));
  }

  lemma TailDetermines<T(!new)>(a: seq<T>, key: T -> string)
    requires a != [] && KeyDetermines(a, key)
    ensures KeyDetermines(a[1..], key)
  {
    assert forall i :: 0 <= i < |a[1..]| ==> a[1..][i] == a[i + 1];
  }

  lemma TailSorted<T>(a: seq<T>, key: T -> string)
    requires a != [] && SortedBy(a, key)
    ensures SortedBy(a[1..], key)
  {
    assert forall i :: 0 <= i < |a[1..]| ==> a[1..][i] == a[i + 1];
  }

  lemma {:induction false} SortedIsUnique<T(!new)>(a: seq<T>, b: seq<T>, key: T -> string)
    requires SortedBy(a, key) && SortedBy(b, key) && multiset(a) == multiset(b)
    requires KeyDetermines(a, key)
    ensures a == b
  {
    assert |multiset(a)| == |multiset(b)|;
    if a != [] {
      SortedHeadsAgree(a, b, key);
      hide SortedBy, KeyDetermines;
      var a', b' := a[1..], b[1..];
      assert a == [a[0]] + a' && b == [b[0]] + b';
      assert multiset(a') == multiset(a) - multiset{a[0]};
      assert multiset(b') == multiset(b) - multiset{b[0]};
      TailDetermines(a, key);
      TailSorted(a, key);
      TailSorted(b, key);
      SortedIsUnique(a', b', key);
    }
  }

  /** Sorting forgets the input order as long as equal keys mean equal elements. */
  lemma SortForgetsOrder<T(!new)>(s: seq<T>, t: seq<T>, key: T -> string)
    requires multiset(s) == multiset(t)
    requires KeyDetermines(s, key)
    ensures SortBy(s, key) == SortBy(t, key)
  {
    SortBySorts(s, key);
    SortBySorts(t, key);
    var r := SortBy(s, key);
    assert forall i :: 0 <= i < |r| ==> r[i] in multiset(s);
    assert KeyDetermines(r, key);
    SortedIsUnique(r, SortBy(t, key), key);
  }

  /** Sorting keeps exactly the elements of its input. */
  lemma SortKeepsElements<T>(s: seq<T>, key: T -> string)
    ensures forall u :: u in SortBy(s, key) <==> u in s
  {
    SortBySorts(s, key);
    forall u ensures u in SortBy(s, key) <==> u in s {
      assert u in SortBy(s, key) <==> u in multiset(SortBy(s, key));
      assert u in s <==> u in multiset(s);
    }
  }

  ghost predicate DistinctKeys<T>(s: seq<T>, key: T -> string) {
    forall i, j :: 0 <= i < j < |s| ==> key(s[i]) != key(s[j])
  }

  lemma {:induction false} InsertKeepsDistinct<T>(x: T, s: seq<T>, key: T -> string)
    requires DistinctKeys(s, key) && forall i :: 0 <= i < |s| ==> key(s[i]) != key(x)
    ensures DistinctKeys(Insert(x, s, key), key)
  {
    if s != [] && StringLess(key(s[0]), key(x)) {
      InsertKeepsDistinct(x, s[1..], key);
      InsertKeys(x, s[1..], key, k => k != key(s[0]));
    }
  }

  lemma {:induction false} SortKeys<T>(s: seq<T>, key: T -> string, p: string -> bool)
    requires Keys(s, key, p)
    ensures Keys(SortBy(s, key), key, p)
  {
    if s != [] {
      SortKeys(s[1..], key, p);
      InsertKeys(s[0], SortBy(s[1..], key), key, p);
    }
  }

  /** Distinct keys stay distinct under sorting. */
  lemma {:induction false} SortKeepsDistinct<T>(s: seq<T>, key: T -> string)
    requires DistinctKeys(s, key)
    ensures DistinctKeys(SortBy(s, key), key)
  {
    if s != [] {
      SortKeepsDistinct(s[1..], key);
      SortKeys(s[1..], key, k => k != key(s[0]));
      InsertKeepsDistinct(s[0], SortBy(s[1..], key), key);
    }
  }

  /** The elements of `s` with key `k`, in order. */
  function Ties<T>(s: seq<T>, key: T -> string, k: string): seq<T> {
    if s == [] then [] else (if key(s[0]) == k then [s[0]] else []) + Ties(s[1..], key, k)
  }

  lemma {:induction false} InsertKeepsTies<T>(x: T, s: seq<T>, key: T -> string, k: string)
    ensures Ties(Insert(x, s, key), key, k) == (if key(x) == k then [x] else []) + Ties(s, key, k)
  {
    if s != [] && StringLess(key(s[0]), key(x)) {
      InsertKeepsTies(x, s[1..], key, k);
      StringLessIrreflexive(key(x));
      assert ([s[0]] + Insert(x, s[1..], key))[1..] == Insert(x, s[1..], key);
    } else {
      assert ([x] + s)[1..] == s;
    }
  }

  /** The sort is stable: elements with one key stay in the order they came in. */
  lemma {:induction false} SortKeepsTies<T>(s: seq<T>, key: T -> string, k: string)
    ensures Ties(SortBy(s, key), key, k) == Ties(s, key, k)
  {
    if s != [] {
      SortKeepsTies(s[1..], key, k);
      InsertKeepsTies(s[0], SortBy(s[1..], key), key, k);
    }
  }
}
