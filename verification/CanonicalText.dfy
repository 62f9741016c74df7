/**
 * What the ledger's canonical text looks like, character by character: the order
 * of an object's keys, the punctuation, and the escapes inside quotes.
 */
module CanonicalText {
  import opened Ordering
  import opened CanonicalJson

  /** The members listed in order: each quoted key, a colon and the value's text, separated by commas. */
  function Listing(ms: seq<Member>): string {
    if ms == [] then ""
    else
      Quote(ms[0].key) + ":" + AuditText(ms[0].value) + if |ms| == 1 then "" else "," + Listing(ms[1..])
  }

  function ItemText(item: Json): string {
    if item == Undefined then "" else AuditText(item)
  }

  function ItemListing(items: seq<Json>): string {
    if items == [] then "" else ItemText(items[0]) + if |items| == 1 then "" else "," + ItemListing(items[1..])
  }

  /** Each key is a proper prefix of the next one, or smaller at the first code unit in which they differ. */
  ghost predicate KeysAscend(ms: seq<Member>) {
    forall i, j :: 0 <= i < j < |ms| ==> ComesBefore(ms[i].key, ms[j].key)
  }

  lemma {:induction false} ListingJoins(ms: seq<Member>)
    ensures Join(Texts(AuditMembers(ms))) == Listing(ms)
    ensures |AuditMembers(ms)| == |Texts(AuditMembers(ms))| == |ms|
  {
    hide AuditText, Quote;
    if ms != [] {
      ListingJoins(ms[1..]);
      assert AuditMembers(ms)[1..] == AuditMembers(ms[1..]);
      assert Texts(AuditMembers(ms))[1..] == Texts(AuditMembers(ms[1..]));
    }
  }

  lemma {:induction false} ItemsJoin(items: seq<Json>)
    ensures Join(AuditItems(items)) == ItemListing(items) && |AuditItems(items)| == |items|
  {
    hide AuditText;
    if items != [] {
      ItemsJoin(items[1..]);
      assert AuditItems(items)[1..] == AuditItems(items[1..]);
    }
  }

  lemma {:induction false} AuditInsert(m: Member, ms: seq<Member>)
    ensures AuditMembers(Insert(m, ms, MemberKey)) == Insert(Printed(m.key, AuditText(m.value)), AuditMembers(ms), PrintedKey)
  {
    hide AuditText;
    if ms == [] || !StringLess(ms[0].key, m.key) {
      assert ([m] + ms)[1..] == ms;
    } else {
      AuditInsert(m, ms[1..]);
      var t := Insert(m, ms[1..], MemberKey);
      assert ([ms[0]] + t)[1..] == t;
      assert AuditMembers(ms)[1..] == AuditMembers(ms[1..]);
    }
  }

  lemma {:induction false} AuditSort(ms: seq<Member>)
    ensures AuditMembers(SortBy(ms, MemberKey)) == SortBy(AuditMembers(ms), PrintedKey)
  {
    hide AuditText;
    if ms != [] {
      AuditSort(ms[1..]);
      AuditInsert(ms[0], SortBy(ms[1..], MemberKey));
      assert AuditMembers(ms)[1..] == AuditMembers(ms[1..]);
    }
  }

  /** Ascending keys list the members of an object in one way only. */
  lemma AscendingIsSorted(ms: seq<Member>, sorted: seq<Member>)
    requires multiset(sorted) == multiset(ms) && KeysAscend(sorted)
    ensures SortBy(ms, MemberKey) == sorted
  {
    SortBySorts(ms, MemberKey);
    forall i, j | 0 <= i < j < |sorted| ensures !StringLess(MemberKey(sorted[j]), MemberKey(sorted[i])) && sorted[i].key != sorted[j].key {
      StringLessExactly(sorted[i].key, sorted[j].key);
      NotBoth(sorted[i].key, sorted[j].key);
    }
    assert KeyDetermines(sorted, MemberKey);
    SortedIsUnique(sorted, SortBy(ms, MemberKey), MemberKey);
  }

  /** An object prints as its members in ascending order of key, at every level, in whatever order it holds them. */
  lemma ObjectPrints(ms: seq<Member>, sorted: seq<Member>)
    requires multiset(sorted) == multiset(ms) && KeysAscend(sorted)
    ensures AuditText(Obj(ms)) == "{" + Listing(sorted) + "}"
  {
    AscendingIsSorted(ms, sorted);
    AuditSort(ms);
    ListingJoins(sorted);
  }

  /** Distinct keys can be listed in ascending order. */
  lemma KeysCanAscend(ms: seq<Member>) returns (sorted: seq<Member>)
    requires DistinctKeys(ms, MemberKey)
    ensures multiset(sorted) == multiset(ms) && KeysAscend(sorted)
  {
    sorted := SortBy(ms, MemberKey);
    SortBySorts(ms, MemberKey);
    SortKeepsDistinct(ms, MemberKey);
    forall i, j | 0 <= i < j < |sorted| ensures ComesBefore(sorted[i].key, sorted[j].key) {
      assert MemberKey(sorted[i]) != MemberKey(sorted[j]) && !StringLess(MemberKey(sorted[j]), MemberKey(sorted[i]));
      StringLessTotal(sorted[i].key, sorted[j].key);
      StringLessExactly(sorted[i].key, sorted[j].key);
    }
  }

  /** An array prints as its items in order, an undefined one as nothing. */
  lemma ArrayPrints(items: seq<Json>)
    ensures AuditText(Arr(items)) == "[" + ItemListing(items) + "]"
  {
    ItemsJoin(items);
  }

  lemma ScalarsPrint(v: Json)
    ensures v == Undefined ==> AuditText(v) == "undefined"
    ensures v == Null ==> AuditText(v) == "null"
    ensures v == Bool(true) ==> AuditText(v) == "true"
    ensures v == Bool(false) ==> AuditText(v) == "false"
    ensures v.Num? ==> AuditText(v) == v.text
    ensures v.Str? ==> AuditText(v) == Quote(v.chars)
  {
  }

  // ---------------------------------------------------------------------------
  // Quoting
  // ---------------------------------------------------------------------------

  lemma EscapeFirst(s: string)
    requires s != ""
    ensures EscapeAll(s) == Escape(s[0]) + EscapeAll(s[1..])
  {
  }

  lemma {:induction false} EscapesConcatenate(s: string, t: string)
    ensures EscapeAll(s + t) == EscapeAll(s) + EscapeAll(t)
  {
    hide Escape;
    if s == "" {
      assert s + t == t;
    } else {
      EscapesConcatenate(s[1..], t);
      EscapeFirst(s + t);
      EscapeFirst(s);
      assert (s + t)[1..] == s[1..] + t;
      hide EscapeAll;
      assert Escape(s[0]) + (EscapeAll(s[1..]) + EscapeAll(t)) == Escape(s[0]) + EscapeAll(s[1..]) + EscapeAll(t);
    }
  }

  /** Between quotes the characters follow one another. */
  lemma QuotesConcatenate(s: string, c: char)
    ensures Quote("") == ['"', '"']
    ensures exists body :: Quote(s) == ['"'] + body + ['"'] && Quote(s + [c]) == ['"'] + body + EscapeAll([c]) + ['"']
  {
    EscapesConcatenate(s, [c]);
    hide Escape;
    assert Quote(s) == ['"'] + EscapeAll(s) + ['"'];
    assert Quote(s + [c]) == ['"'] + EscapeAll(s) + EscapeAll([c]) + ['"'];
  }

  /** Each stands for itself, but for the quote, the backslash and the control characters. */
  lemma EscapesAre(c: char)
    ensures c as int >= 32 && c != '"' && c != '\\' ==> EscapeAll([c]) == [c]
    ensures c == '"' || c == '\\' ==> EscapeAll([c]) == ['\\', c]
    ensures c as int == 8 ==> EscapeAll([c]) == ['\\', 'b']
    ensures c as int == 9 ==> EscapeAll([c]) == ['\\', 't']
    ensures c as int == 10 ==> EscapeAll([c]) == ['\\', 'n']
    ensures c as int == 12 ==> EscapeAll([c]) == ['\\', 'f']
    ensures c as int == 13 ==> EscapeAll([c]) == ['\\', 'r']
    ensures c as int < 32 && c as int !in [8, 9, 10, 12, 13] ==>
              EscapeAll([c]) == ['\\', 'u', '0', '0', if c as int < 16 then '0' else '1', "0123456789abcdef"[c as int % 16]]
  {
    assert EscapeAll([c]) == Escape(c);
    if c as int < 32 { HexTail(c as int); }
  }

  lemma HexTail(n: nat)
    requires n < 32
    ensures HexDigit(n / 16) == if n < 16 then '0' else '1'
    ensures HexDigit(n % 16) == "0123456789abcdef"[n % 16]
  {
  }

  /** Made of small letters, digits and underscores, as the repository's keys are. */
  predicate PlainKey(s: string) {
    forall i :: 0 <= i < |s| ==> s[i] == '_' || 'a' <= s[i] <= 'z' || '0' <= s[i] <= '9'
  }

  lemma {:induction false} PlainKeyQuotes(s: string)
    requires PlainKey(s)
    ensures EscapeAll(s) == s && Quote(s) == ['"'] + s + ['"']
  {
    if s != "" {
      PlainKeyQuotes(s[1..]);
      assert Escape(s[0]) == [s[0]];
    }
  }

  /** One printed member: the key as it stands, in quotes, a colon and the value's text. */
  function Entry(key: string, text: string): string {
    ['"'] + key + ['"', ':'] + text
  }

  lemma {:induction false} AscendByNeighbours(ms: seq<Member>)
    requires forall i :: 0 <= i < |ms| - 1 ==> ComesBefore(ms[i].key, ms[i + 1].key)
    ensures KeysAscend(ms)
  {
    hide ComesBefore;
    if ms != [] {
      var tail := ms[1..];
      AscendByNeighbours(tail);
      forall j | 0 < j < |ms| ensures ComesBefore(ms[0].key, ms[j].key) {
        if j > 1 {
          assert ComesBefore(tail[0].key, tail[j - 1].key);
          ComesBeforeTransitive(ms[0].key, ms[1].key, ms[j].key);
        }
      }
      forall i, j | 0 <= i < j < |ms| ensures ComesBefore(ms[i].key, ms[j].key) {
        if i > 0 { assert ms[i] == tail[i - 1] && ms[j] == tail[j - 1]; }
      }
    }
  }

  lemma ComesBeforeTransitive(a: string, b: string, c: string)
    requires ComesBefore(a, b) && ComesBefore(b, c)
    ensures ComesBefore(a, c)
  {
    StringLessExactly(a, b);
    StringLessExactly(b, c);
    StringLessTransitive(a, b, c);
    StringLessExactly(a, c);
  }

  /** Keys and printed values, as fields of an object's text. */
  function Fields(fs: seq<(string, string)>): string {
    if fs == [] then "" else Entry(fs[0].0, fs[0].1) + if |fs| == 1 then "" else "," + Fields(fs[1..])
  }

  lemma {:induction false} ListingFields(ms: seq<Member>, fs: seq<(string, string)>)
    requires |ms| == |fs| && forall i :: 0 <= i < |ms| ==> PlainKey(ms[i].key) && fs[i] == (ms[i].key, AuditText(ms[i].value))
    ensures Listing(ms) == Fields(fs)
  {
    hide PlainKey, AuditText, Quote;
    if ms != [] {
      ListingFields(ms[1..], fs[1..]);
      PlainKeyQuotes(ms[0].key);
    }
  }

  lemma AscendingIsPermutation(ms: seq<Member>, sorted: seq<Member>)
    requires |ms| == |sorted| && (forall i :: 0 <= i < |sorted| ==> sorted[i] in ms) && KeysAscend(sorted)
    ensures multiset(sorted) == multiset(ms)
  {
    forall i, j | 0 <= i < j < |sorted| ensures MemberKey(sorted[i]) != MemberKey(sorted[j]) {
      StringLessExactly(sorted[i].key, sorted[j].key);
      StringLessIrreflexive(sorted[i].key);
    }
    InclusionIsPermutation(sorted, ms);
  }

  /** An object with plain keys prints as its fields in key order. */
  lemma ObjectFields(ms: seq<Member>, sorted: seq<Member>, fs: seq<(string, string)>)
    requires |ms| == |sorted| == |fs| && forall i :: 0 <= i < |sorted| ==> sorted[i] in ms
    requires forall i :: 0 <= i < |sorted| - 1 ==> ComesBefore(sorted[i].key, sorted[i + 1].key)
    requires forall i :: 0 <= i < |sorted| ==> PlainKey(sorted[i].key) && fs[i] == (sorted[i].key, AuditText(sorted[i].value))
    ensures AuditText(Obj(ms)) == "{" + Fields(fs) + "}"
  {
    hide ComesBefore, PlainKey, AuditText, KeysAscend;
    AscendByNeighbours(sorted);
    AscendingIsPermutation(ms, sorted);
    ObjectPrints(ms, sorted);
    ListingFields(sorted, fs);
  }

  // ---------------------------------------------------------------------------
  // The artifact's printer
  // ---------------------------------------------------------------------------

  /** The value with every undefined member dropped, at every level. */
  function Defined(v: Json): Json {
    match v
    case Arr(items) => Arr(DefinedItems(items))
    case Obj(members) => Obj(DefinedMembers(members))
    case _ => v
  }

  function DefinedItems(items: seq<Json>): seq<Json> {
    if items == [] then [] else [Defined(items[0])] + DefinedItems(items[1..])
  }

  function DefinedMembers(ms: seq<Member>): seq<Member> {
    if ms == [] then []
    else (if ms[0].value == Undefined then [] else [Member(ms[0].key, Defined(ms[0].value))]) + DefinedMembers(ms[1..])
  }

  /** The artifact's printer prints what the ledger's prints of the value without its undefined members. */
  lemma {:induction false} ArtifactPrints(v: Json)
    ensures ArtifactText(v) == AuditText(Defined(v))
  {
    match v
    case Arr(items) => ArtifactItemsPrint(items);
    case Obj(members) => ArtifactMembersPrint(members);
    case _ =>
  }

  lemma {:induction false} ArtifactItemsPrint(items: seq<Json>)
    ensures ArtifactItems(items) == AuditItems(DefinedItems(items))
  {
    if items != [] {
      ArtifactPrints(items[0]);
      ArtifactItemsPrint(items[1..]);
      hide ArtifactText, AuditText;
      assert DefinedItems(items)[1..] == DefinedItems(items[1..]);
    }
  }

  lemma {:induction false} ArtifactMembersPrint(ms: seq<Member>)
    ensures ArtifactMembers(ms) == AuditMembers(DefinedMembers(ms))
  {
    if ms != [] {
      ArtifactPrints(ms[0].value);
      ArtifactMembersPrint(ms[1..]);
      hide ArtifactText, AuditText;
      if ms[0].value == Undefined {
        assert DefinedMembers(ms) == DefinedMembers(ms[1..]);
      } else {
        assert DefinedMembers(ms)[1..] == DefinedMembers(ms[1..]);
      }
    }
  }
}
