/**
 * Canonical JSON: the ledger's printer and the artifact's printer, both with
 * object keys sorted at every level, and a parser that reads them back.
 */
module CanonicalJson {
  import opened Ordering

  datatype Option<+T> = None | Some(value: T)

  /** A number is known by the text it prints as; an object by its members in insertion order. */
  datatype Json =
    | Undefined
    | Null
    | Bool(value: bool)
    | Num(text: string)
    | Str(chars: string)
    | Arr(items: seq<Json>)
    | Obj(members: seq<Member>)

  datatype Member = Member(key: string, value: Json)

  function MemberKey(m: Member): string { m.key }

  // ---------------------------------------------------------------------------
  // Quoting, section 7 of RFC 8259
  // ---------------------------------------------------------------------------

  function HexDigit(n: nat): char
    requires n < 16
  {
    "0123456789abcdef"[n]
  }

  function Escape(c: char): string {
    if c == '"' then "\\\""
    else if c == '\\' then "\\\\"
    else if c == 8 as char then "\\b"
    else if c == 12 as char then "\\f"
    else if c == '\n' then "\\n"
    else if c == '\r' then "\\r"
    else if c == '\t' then "\\t"
    else if c as int < 32 then "\\u00" + [HexDigit(c as int / 16), HexDigit(c as int % 16)]
    else [c]
  }

  function EscapeAll(s: string): string {
    if s == "" then "" else Escape(s[0]) + EscapeAll(s[1..])
  }

  function Quote(s: string): string {
    "\"" + EscapeAll(s) + "\""
  }

  // ---------------------------------------------------------------------------
  // The two printers
  // ---------------------------------------------------------------------------

  function Join(parts: seq<string>): string {
    if parts == [] then ""
    else if |parts| == 1 then parts[0]
    else parts[0] + "," + Join(parts[1..])
  }

  /** An object member with its value already printed. */
  datatype Printed = Printed(key: string, text: string)

  function PrintedKey(p: Printed): string { p.key }

  function Texts(ps: seq<Printed>): seq<string> {
    if ps == [] then [] else [Quote(ps[0].key) + ":" + ps[0].text] + Texts(ps[1..])
  }

  function Braced(ps: seq<Printed>): string {
    "{" + Join(Texts(SortBy(ps, PrintedKey))) + "}"
  }

  function Scalar(v: Json): string
    requires !v.Arr? && !v.Obj?
  {
    match v
    case Undefined => "undefined"
    case Null => "null"
    case Bool(b) => if b then "true" else "false"
    case Num(t) => t
    case Str(s) => Quote(s)
  }

  /** The ledger's printer: an undefined member value prints as the word, an undefined array item as nothing. */
  function AuditText(v: Json): string {
    match v
    case Arr(items) => "[" + Join(AuditItems(items)) + "]"
    case Obj(members) => Braced(AuditMembers(members))
    case _ => Scalar(v)
  }

  function AuditItems(items: seq<Json>): seq<string> {
    if items == [] then []
    else [if items[0].Undefined? then "" else AuditText(items[0])] + AuditItems(items[1..])
  }

  function AuditMembers(ms: seq<Member>): seq<Printed> {
    if ms == [] then [] else [Printed(ms[0].key, AuditText(ms[0].value))] + AuditMembers(ms[1..])
  }

  /** The artifact's printer: undefined members are dropped first. */
  function ArtifactText(v: Json): string {
    match v
    case Arr(items) => "[" + Join(ArtifactItems(items)) + "]"
    case Obj(members) => Braced(ArtifactMembers(members))
    case _ => Scalar(v)
  }

  function ArtifactItems(items: seq<Json>): seq<string> {
    if items == [] then []
    else [if items[0].Undefined? then "" else ArtifactText(items[0])] + ArtifactItems(items[1..])
  }

  function ArtifactMembers(ms: seq<Member>): seq<Printed> {
    if ms == [] then []
    else if ms[0].value.Undefined? then ArtifactMembers(ms[1..])
    else [Printed(ms[0].key, ArtifactText(ms[0].value))] + ArtifactMembers(ms[1..])
  }

  // ---------------------------------------------------------------------------
  // The values the printers are meant for
  // ---------------------------------------------------------------------------

  predicate NumberChar(c: char) {
    '0' <= c <= '9' || c == '-' || c == '+' || c == '.' || c == 'e' || c == 'E'
  }

  predicate NumberText(t: string) {
    t != "" && ('0' <= t[0] <= '9' || t[0] == '-') && forall i :: 0 <= i < |t| ==> NumberChar(t[i])
  }

  /** Numbers print as numbers, keys are distinct within an object, and nothing is undefined. */
  ghost predicate Valid(v: Json) {
    match v
    case Undefined => false
    case Null => true
    case Bool(_) => true
    case Num(t) => NumberText(t)
    case Str(_) => true
    case Arr(items) => ValidItems(items)
    case Obj(members) => ValidMembers(members) && DistinctKeys(members, MemberKey)
  }

  ghost predicate ValidItems(items: seq<Json>) {
    items == [] || (Valid(items[0]) && ValidItems(items[1..]))
  }

  ghost predicate ValidMembers(ms: seq<Member>) {
    ms == [] || (Valid(ms[0].value) && ValidMembers(ms[1..]))
  }

  /** The same value with the members of every object in key order. */
  function Normalize(v: Json): Json {
    match v
    case Arr(items) => Arr(NormalizeItems(items))
    case Obj(members) => Obj(SortBy(NormalizeMembers(members), MemberKey))
    case _ => v
  }

  function NormalizeItems(items: seq<Json>): seq<Json> {
    if items == [] then [] else [Normalize(items[0])] + NormalizeItems(items[1..])
  }

  function NormalizeMembers(ms: seq<Member>): seq<Member> {
    if ms == [] then [] else [Member(ms[0].key, Normalize(ms[0].value))] + NormalizeMembers(ms[1..])
  }

  // ---------------------------------------------------------------------------
  // Printing without sorting
  // ---------------------------------------------------------------------------

  function Plain(v: Json): string {
    match v
    case Arr(items) => "[" + Join(PlainItems(items)) + "]"
    case Obj(members) => "{" + Join(Texts(PlainMembers(members))) + "}"
    case _ => Scalar(v)
  }

  function PlainItems(items: seq<Json>): seq<string> {
    if items == [] then [] else [Plain(items[0])] + PlainItems(items[1..])
  }

  function PlainMembers(ms: seq<Member>): seq<Printed> {
    if ms == [] then [] else [Printed(ms[0].key, Plain(ms[0].value))] + PlainMembers(ms[1..])
  }

  lemma {:induction false} PlainInsert(m: Member, ms: seq<Member>)
    ensures PlainMembers(Insert(m, ms, MemberKey)) == Insert(Printed(m.key, Plain(m.value)), PlainMembers(ms), PrintedKey)
  {
    var p := Printed(m.key, Plain(m.value));
    if ms == [] || !StringLess(ms[0].key, m.key) {
      assert ([m] + ms)[1..] == ms;
    } else {
      PlainInsert(m, ms[1..]);
      var t := Insert(m, ms[1..], MemberKey);
      assert ([ms[0]] + t)[1..] == t;
      assert PlainMembers(ms)[1..] == PlainMembers(ms[1..]);
    }
  }

  // printing commutes with sorting by key
  lemma {:induction false} PlainSort(ms: seq<Member>)
    ensures PlainMembers(SortBy(ms, MemberKey)) == SortBy(PlainMembers(ms), PrintedKey)
  {
    if ms != [] {
      PlainSort(ms[1..]);
      PlainInsert(ms[0], SortBy(ms[1..], MemberKey));
      assert PlainMembers(ms)[1..] == PlainMembers(ms[1..]);
    }
  }

  /** The ledger's text of a value is the plain text of its normal form. */
  lemma {:induction false} AuditIsPlain(v: Json)
    requires Valid(v)
    ensures AuditText(v) == Plain(Normalize(v))
  {
    match v
    case Arr(items) => AuditItemsArePlain(items);
    case Obj(members) =>
      AuditMembersArePlain(members);
      PlainSort(NormalizeMembers(members));
    case _ =>
  }

  lemma {:induction false} AuditItemsArePlain(items: seq<Json>)
    requires ValidItems(items)
    ensures AuditItems(items) == PlainItems(NormalizeItems(items))
  {
    if items != [] {
      AuditIsPlain(items[0]);
      AuditItemsArePlain(items[1..]);
      assert NormalizeItems(items)[1..] == NormalizeItems(items[1..]);
    }
  }

  lemma {:induction false} AuditMembersArePlain(ms: seq<Member>)
    requires ValidMembers(ms)
    ensures AuditMembers(ms) == PlainMembers(NormalizeMembers(ms))
  {
    if ms != [] {
      AuditIsPlain(ms[0].value);
      AuditMembersArePlain(ms[1..]);
      assert NormalizeMembers(ms)[1..] == NormalizeMembers(ms[1..]);
    }
  }

  // ---------------------------------------------------------------------------
  // Reading the text back
  // ---------------------------------------------------------------------------

  function HexValue(c: char): Option<nat> {
    if '0' <= c <= '9' then Some(c as int - '0' as int)
    else if 'a' <= c <= 'f' then Some(c as int - 'a' as int + 10)
    else None
  }

  /** Reads the character an escape stands for, after the backslash. */
  function ParseEscape(s: string): (r: Option<(char, string)>)
    ensures r.Some? ==> |r.value.1| < |s|
  {
    if s == "" then None
    else if s[0] == '"' then Some(('"', s[1..]))
    else if s[0] == '\\' then Some(('\\', s[1..]))
    else if s[0] == 'b' then Some((8 as char, s[1..]))
    else if s[0] == 'f' then Some((12 as char, s[1..]))
    else if s[0] == 'n' then Some(('\n', s[1..]))
    else if s[0] == 'r' then Some(('\r', s[1..]))
    else if s[0] == 't' then Some(('\t', s[1..]))
    else if s[0] == 'u' && |s| >= 5 && s[1] == '0' && s[2] == '0' then
      match (HexValue(s[3]), HexValue(s[4]))
      case (Some(a), Some(b)) => if a * 16 + b < 128 then Some(((a * 16 + b) as char, s[5..])) else None
      case _ => None
    else None
  }

  /** Reads a string body up to and including its closing quote. */
  function ParseString(s: string): (r: Option<(string, string)>)
    ensures r.Some? ==> |r.value.1| < |s|
    decreases |s|
  {
    if s == "" then None
    else if s[0] == '"' then Some(("", s[1..]))
    else if s[0] == '\\' then
      match ParseEscape(s[1..])
      case None => None
      case Some((c, rest)) =>
        (match ParseString(rest)
         case None => None
         case Some((t, after)) => Some(([c] + t, after)))
    else
      match ParseString(s[1..])
      case None => None
      case Some((t, after)) => Some(([s[0]] + t, after))
  }

  function NumberPrefix(s: string): (n: nat)
    ensures n <= |s|
  {
    if s == "" || !NumberChar(s[0]) then 0 else 1 + NumberPrefix(s[1..])
  }

  function ParseValue(s: string): (r: Option<(Json, string)>)
    ensures r.Some? ==> |r.value.1| < |s|
    decreases |s|, 1
  {
    if s == "" then None
    else if "null" <= s then Some((Null, s[4..]))
    else if "true" <= s then Some((Bool(true), s[4..]))
    else if "false" <= s then Some((Bool(false), s[5..]))
    else if s[0] == '"' then
      match ParseString(s[1..])
      case None => None
      case Some((t, rest)) => Some((Str(t), rest))
    else if s[0] == '[' then
      if "[]" <= s then Some((Arr([]), s[2..]))
      else
        match ParseItems(s[1..])
        case None => None
        case Some((items, rest)) => Some((Arr(items), rest))
    else if s[0] == '{' then
      if "{}" <= s then Some((Obj([]), s[2..]))
      else
        match ParseMembers(s[1..])
        case None => None
        case Some((ms, rest)) => Some((Obj(ms), rest))
    else if NumberPrefix(s) > 0 then Some((Num(s[..NumberPrefix(s)]), s[NumberPrefix(s)..]))
    else None
  }

  /** Reads comma-separated items up to and including the closing bracket. */
  function ParseItems(s: string): (r: Option<(seq<Json>, string)>)
    ensures r.Some? ==> |r.value.1| < |s|
    decreases |s|, 2
  {
    match ParseValue(s)
    case None => None
    case Some((v, rest)) =>
      if rest == "" then None
      else if rest[0] == ']' then Some(([v], rest[1..]))
      else if rest[0] == ',' then
        (match ParseItems(rest[1..])
         case None => None
         case Some((vs, after)) => Some(([v] + vs, after)))
      else None
  }

  /** Reads comma-separated members up to and including the closing brace. */
  function ParseMembers(s: string): (r: Option<(seq<Member>, string)>)
    ensures r.Some? ==> |r.value.1| < |s|
    decreases |s|, 2
  {
    if s == "" || s[0] != '"' then None
    else
      match ParseString(s[1..])
      case None => None
      case Some((k, colon)) =>
        if colon == "" || colon[0] != ':' then None
        else
          match ParseValue(colon[1..])
          case None => None
          case Some((v, rest)) =>
            if rest == "" then None
            else if rest[0] == '}' then Some(([Member(k, v)], rest[1..]))
            else if rest[0] == ',' then
              (match ParseMembers(rest[1..])
               case None => None
               case Some((ms, after)) => Some(([Member(k, v)] + ms, after)))
            else None
  }

  /** Parses a whole text. */
  function Parse(s: string): Option<Json> {
    match ParseValue(s)
    case Some((v, rest)) => if rest == "" then Some(v) else None
    case None => None
  }

  // ---------------------------------------------------------------------------
  // Reading back what was printed
  // ---------------------------------------------------------------------------

  lemma ParseUnicodeEscape(c: char, tail: string)
    requires c as int < 32
    ensures ParseEscape("u00" + [HexDigit(c as int / 16), HexDigit(c as int % 16)] + tail) == Some((c, tail))
  {
    var code := c as int;
    var s := "u00" + [HexDigit(code / 16), HexDigit(code % 16)] + tail;
    assert s[5..] == tail && s[3] == HexDigit(code / 16) && s[4] == HexDigit(code % 16);
    HexReads(code / 16);
    HexReads(code % 16);
    assert code / 16 * 16 + code % 16 == code;
  }

  lemma HexReads(n: nat)
    requires n < 16
    ensures HexValue(HexDigit(n)) == Some(n)
  {
  }

  lemma ParseShortEscape(e: char, tail: string)
    requires e != 'u'
    ensures ParseEscape([e] + tail) == match ParseEscape([e]) case None => None case Some((c, _)) => Some((c, tail))
  {
    assert ([e] + tail)[1..] == tail;
  }

  lemma ParseEscapeReads(c: char, tail: string)
    requires Escape(c) != [c]
    ensures Escape(c)[0] == '\\' && ParseEscape(Escape(c)[1..] + tail) == Some((c, tail))
  {
    var e := Escape(c);
    if |e| == 2 {
      assert e[1..] == [e[1]];
      ParseShortEscape(e[1], tail);
    } else {
      ParseUnicodeEscape(c, tail);
      assert e[1..] == "u00" + [HexDigit(c as int / 16), HexDigit(c as int % 16)];
    }
  }

  lemma PlainCharacter(c: char)
    requires Escape(c) == [c]
    ensures c != '"' && c != '\\'
  {
  }

  lemma ParseEscaped(c: char, tail: string)
    requires ParseString(tail).Some?
    ensures ParseString(Escape(c) + tail) == Some(([c] + ParseString(tail).value.0, ParseString(tail).value.1))
  {
    var e, s := Escape(c), Escape(c) + tail;
    if e == [c] {
      PlainCharacter(c);
      assert s[0] == c && s[1..] == tail;
    } else {
      ParseEscapeReads(c, tail);
      hide Escape, ParseEscape;
      assert s[0] == e[0] && s[1..] == e[1..] + tail;
    }
  }

  lemma {:induction false} ParseStringReads(s: string, rest: string)
    ensures ParseString(EscapeAll(s) + "\"" + rest) == Some((s, rest))
  {
    if s == "" {
      assert ("\"" + rest)[1..] == rest;
      assert EscapeAll(s) + "\"" + rest == "\"" + rest;
    } else {
      var tail := EscapeAll(s[1..]) + "\"" + rest;
      ParseStringReads(s[1..], rest);
      ParseEscaped(s[0], tail);
      assert EscapeAll(s) + "\"" + rest == Escape(s[0]) + tail;
      assert [s[0]] + s[1..] == s;
    }
  }

  /** `Valid` without the distinct keys: what the parser can read back. */
  ghost predicate Readable(v: Json) {
    match v
    case Undefined => false
    case Num(t) => NumberText(t)
    case Arr(items) => ReadableItems(items)
    case Obj(members) => ReadableMembers(members)
    case _ => true
  }

  ghost predicate ReadableItems(items: seq<Json>) {
    items == [] || (Readable(items[0]) && ReadableItems(items[1..]))
  }

  ghost predicate ReadableMembers(ms: seq<Member>) {
    ms == [] || (Readable(ms[0].value) && ReadableMembers(ms[1..]))
  }

  /** A value is followed by the end of the text or by a separator. */
  predicate Separated(rest: string) {
    rest == "" || rest[0] == ',' || rest[0] == ']' || rest[0] == '}'
  }

  lemma FirstCharacter(v: Json)
    requires Readable(v)
    ensures Plain(v) != "" && Plain(v)[0] != ']' && Plain(v)[0] != '}' && Plain(v)[0] != ','
  {
  }

  lemma {:induction false} NumberPrefixReads(t: string, rest: string)
    requires (forall i :: 0 <= i < |t| ==> NumberChar(t[i])) && Separated(rest)
    ensures NumberPrefix(t + rest) == |t|
  {
    if t == "" {
      assert t + rest == rest;
    } else {
      NumberPrefixReads(t[1..], rest);
      assert (t + rest)[1..] == t[1..] + rest;
    }
  }

  lemma ParseNumberReads(t: string, rest: string)
    requires NumberText(t) && Separated(rest)
    ensures ParseValue(t + rest) == Some((Num(t), rest))
  {
    NumberPrefixReads(t, rest);
    var s := t + rest;
    assert s[0] == t[0];
    assert s[..|t|] == t && s[|t|..] == rest;
  }

  lemma ParseWordReads(rest: string)
    ensures ParseValue("null" + rest) == Some((Null, rest))
    ensures ParseValue("true" + rest) == Some((Bool(true), rest))
    ensures ParseValue("false" + rest) == Some((Bool(false), rest))
  {
    assert ("null" + rest)[4..] == rest && ("true" + rest)[4..] == rest && ("false" + rest)[5..] == rest;
    assert ("true" + rest)[0] == 't' && ("false" + rest)[0] == 'f';
  }

  lemma ParseQuotedReads(t: string, rest: string)
    ensures ParseValue(Quote(t) + rest) == Some((Str(t), rest))
  {
    hide EscapeAll, ParseString;
    var s := Quote(t) + rest;
    ParseStringReads(t, rest);
    assert s[0] == '"' && s[1..] == EscapeAll(t) + "\"" + rest;
  }

  /** Printing and then parsing a value gives it back, whatever separated text follows. */
  lemma {:induction false} ParseReads(v: Json, rest: string)
    requires Readable(v) && Separated(rest)
    ensures ParseValue(Plain(v) + rest) == Some((v, rest))
    decreases v, 1
  {
    match v
    case Null => ParseWordReads(rest);
    case Bool(_) => ParseWordReads(rest);
    case Num(t) => ParseNumberReads(t, rest);
    case Str(t) => ParseQuotedReads(t, rest);
    case Arr(items) => ParseArrayReads(items, rest);
    case Obj(members) => ParseObjectReads(members, rest);
  }

  lemma ParseEmptyReads(rest: string)
    ensures ParseValue("[]" + rest) == Some((Arr([]), rest))
    ensures ParseValue("{}" + rest) == Some((Obj([]), rest))
  {
    assert ("[]" + rest)[0] == '[' && ("[]" + rest)[2..] == rest;
    assert ("{}" + rest)[0] == '{' && ("{}" + rest)[2..] == rest;
  }

  lemma Regroup(a: string, b: string, c: string, d: string)
    ensures a + b + c + d == a + (b + c + d)
  {
  }

  lemma ParseBracketed(body: string)
    requires ParseItems(body).Some? && body != "" && body[0] != ']'
    ensures ParseValue("[" + body) == Some((Arr(ParseItems(body).value.0), ParseItems(body).value.1))
  {
    hide ParseItems;
    var s := "[" + body;
    assert s[0] == '[' && s[1] == body[0] && s[1..] == body;
  }

  lemma {:induction false} ParseArrayReads(items: seq<Json>, rest: string)
    requires ReadableItems(items)
    ensures ParseValue(Plain(Arr(items)) + rest) == Some((Arr(items), rest))
    decreases items, 1
  {
    var s := Plain(Arr(items)) + rest;
    if items == [] {
      ParseEmptyReads(rest);
      assert s == "[]" + rest;
    } else {
      ParseItemsReads(items, rest);
      FirstCharacter(items[0]);
      ItemsStart(items);
      hide ParseValue, ParseItems, PlainItems, Join;
      var body := Join(PlainItems(items)) + "]" + rest;
      Regroup("[", Join(PlainItems(items)), "]", rest);
      assert s == "[" + body && body[0] == Join(PlainItems(items))[0];
      ParseBracketed(body);
    }
  }

  lemma ItemsStart(items: seq<Json>)
    requires items != [] && Plain(items[0]) != ""
    ensures Join(PlainItems(items)) != "" && Join(PlainItems(items))[0] == Plain(items[0])[0]
  {
  }

  lemma {:induction false} ParseItemsReads(items: seq<Json>, rest: string)
    requires items != [] && ReadableItems(items)
    ensures ParseItems(Join(PlainItems(items)) + "]" + rest) == Some((items, rest))
    decreases items, 0
  {
    var parts := PlainItems(items);
    assert parts[1..] == PlainItems(items[1..]);
    if |items| == 1 {
      assert PlainItems(items[1..]) == [];
      assert Join(parts) + "]" + rest == Plain(items[0]) + ("]" + rest);
      ParseReads(items[0], "]" + rest);
      assert items == [items[0]];
      assert ("]" + rest)[1..] == rest;
    } else {
      assert PlainItems(items[1..]) != [];
      var tail := Join(PlainItems(items[1..])) + "]" + rest;
      assert Join(parts) + "]" + rest == Plain(items[0]) + ("," + tail);
      ParseReads(items[0], "," + tail);
      ParseItemsReads(items[1..], rest);
      assert ("," + tail)[1..] == tail;
      assert items == [items[0]] + items[1..];
    }
  }

  lemma ParseBraced(body: string)
    requires ParseMembers(body).Some? && body != "" && body[0] != '}'
    ensures ParseValue("{" + body) == Some((Obj(ParseMembers(body).value.0), ParseMembers(body).value.1))
  {
    hide ParseMembers;
    var s := "{" + body;
    assert s[0] == '{' && s[1] == body[0] && s[1..] == body;
  }

  lemma {:induction false} ParseObjectReads(members: seq<Member>, rest: string)
    requires ReadableMembers(members)
    ensures ParseValue(Plain(Obj(members)) + rest) == Some((Obj(members), rest))
    decreases members, 1
  {
    var s := Plain(Obj(members)) + rest;
    if members == [] {
      ParseEmptyReads(rest);
      assert s == "{}" + rest;
    } else {
      ParseMembersReads(members, rest);
      MembersStart(members);
      hide ParseValue, ParseMembers, PlainMembers, Texts, Join;
      var body := Join(Texts(PlainMembers(members))) + "}" + rest;
      Regroup("{", Join(Texts(PlainMembers(members))), "}", rest);
      assert s == "{" + body && body[0] == Join(Texts(PlainMembers(members)))[0];
      ParseBraced(body);
    }
  }

  lemma MembersStart(members: seq<Member>)
    requires members != []
    ensures Join(Texts(PlainMembers(members))) != "" && Join(Texts(PlainMembers(members)))[0] == '"'
  {
  }

  lemma ParseMemberHead(k: string, v: Json, after: string)
    requires ParseValue(Plain(v) + after) == Some((v, after)) && after != ""
    ensures var s := Quote(k) + ":" + Plain(v) + after;
            ParseMembers(s) ==
              if after[0] == '}' then Some(([Member(k, v)], after[1..]))
              else if after[0] == ',' then
                (match ParseMembers(after[1..])
                 case None => None
                 case Some((ms, rest)) => Some(([Member(k, v)] + ms, rest)))
              else None
  {
    hide ParseString, ParseValue, Plain;
    var s := Quote(k) + ":" + Plain(v) + after;
    var colon := ":" + (Plain(v) + after);
    ParseStringReads(k, colon);
    QuotedStart(k, Plain(v), after);
    hide EscapeAll, Quote;
    assert colon[0] == ':' && colon[1..] == Plain(v) + after;
  }

  lemma QuotedStart(k: string, text: string, after: string)
    ensures var s := Quote(k) + ":" + text + after;
            s[0] == '"' && s[1..] == EscapeAll(k) + "\"" + (":" + (text + after))
  {
    hide EscapeAll;
    var e, tail := EscapeAll(k), ":" + (text + after);
    assert Quote(k) + ":" + text + after == "\"" + (e + "\"" + tail);
  }

  lemma {:induction false} ParseMembersReads(members: seq<Member>, rest: string)
    requires members != [] && ReadableMembers(members)
    ensures ParseMembers(Join(Texts(PlainMembers(members))) + "}" + rest) == Some((members, rest))
    decreases members, 0
  {
    hide ParseMembers, ParseValue, Join, Texts, PlainMembers, Plain, Quote;
    var m, head := members[0], Quote(members[0].key) + ":" + Plain(members[0].value);
    MembersText(members);
    if |members| == 1 {
      ParseReads(m.value, "}" + rest);
      ParseMemberHead(m.key, m.value, "}" + rest);
      assert Join(Texts(PlainMembers(members))) + "}" + rest == head + ("}" + rest);
      assert ("}" + rest)[1..] == rest;
      assert members == [m];
    } else {
      var tail := Join(Texts(PlainMembers(members[1..]))) + "}" + rest;
      ParseReads(m.value, "," + tail);
      ParseMemberHead(m.key, m.value, "," + tail);
      ParseMembersReads(members[1..], rest);
      assert Join(Texts(PlainMembers(members))) + "}" + rest == head + ("," + tail);
      assert ("," + tail)[1..] == tail;
      assert members == [m] + members[1..];
    }
  }

  lemma MembersText(members: seq<Member>)
    requires members != []
    ensures var head, texts := Quote(members[0].key) + ":" + Plain(members[0].value), Texts(PlainMembers(members));
            Join(texts) == if |members| == 1 then head else head + "," + Join(Texts(PlainMembers(members[1..])))
  {
    hide Quote, Plain;
    var ps := PlainMembers(members);
    assert ps[1..] == PlainMembers(members[1..]);
    var texts := Texts(ps);
    assert texts[1..] == Texts(PlainMembers(members[1..]));
    if |members| > 1 {
      assert PlainMembers(members[1..]) != [];
    } else {
      assert PlainMembers(members[1..]) == [];
    }
  }

  // ---------------------------------------------------------------------------
  // Equality up to key order
  // ---------------------------------------------------------------------------

  /** Equal up to the order of object members, at every level. */
  ghost predicate Same(a: Json, b: Json) {
    match (a, b)
    case (Arr(u), Arr(v)) => |u| == |v| && forall i :: 0 <= i < |u| ==> Same(u[i], v[i])
    case (Obj(u), Obj(v)) => |u| == |v| && forall i :: 0 <= i < |u| ==> SomeSame(u[i], v)
    case _ => a == b
  }

  ghost predicate SomeSame(m: Member, ms: seq<Member>)
    decreases m, 0
  {
    exists j :: 0 <= j < |ms| && m.key == ms[j].key && Same(m.value, ms[j].value)
  }

  lemma {:induction false} NormalizedItem(items: seq<Json>, i: nat)
    requires i < |items|
    ensures |NormalizeItems(items)| == |items| && NormalizeItems(items)[i] == Normalize(items[i])
  {
    if i > 0 { NormalizedItem(items[1..], i - 1); }
    NormalizedLength(items[1..]);
  }

  lemma {:induction false} NormalizedLength(items: seq<Json>)
    ensures |NormalizeItems(items)| == |items|
  {
    if items != [] { NormalizedLength(items[1..]); }
  }

  lemma {:induction false} NormalizedMembersLength(ms: seq<Member>)
    ensures |NormalizeMembers(ms)| == |ms|
  {
    if ms != [] { NormalizedMembersLength(ms[1..]); }
  }

  lemma {:induction false} NormalizedMember(ms: seq<Member>, i: nat)
    requires i < |ms|
    ensures |NormalizeMembers(ms)| == |ms| && NormalizeMembers(ms)[i] == Member(ms[i].key, Normalize(ms[i].value))
  {
    if i > 0 { NormalizedMember(ms[1..], i - 1); }
    NormalizedMembersLength(ms[1..]);
  }

  lemma {:induction false} ValidItem(items: seq<Json>, i: nat)
    requires ValidItems(items) && i < |items|
    ensures Valid(items[i])
  {
    if i > 0 { ValidItem(items[1..], i - 1); }
  }

  lemma {:induction false} ValidMember(ms: seq<Member>, i: nat)
    requires ValidMembers(ms) && i < |ms|
    ensures Valid(ms[i].value)
  {
    if i > 0 { ValidMember(ms[1..], i - 1); }
  }

  lemma NormalizedDistinct(ms: seq<Member>)
    requires DistinctKeys(ms, MemberKey)
    ensures DistinctKeys(NormalizeMembers(ms), MemberKey)
  {
    NormalizedMembersLength(ms);
    var ns := NormalizeMembers(ms);
    forall i, j | 0 <= i < j < |ns| ensures MemberKey(ns[i]) != MemberKey(ns[j]) {
      NormalizedMember(ms, i);
      NormalizedMember(ms, j);
      assert MemberKey(ms[i]) != MemberKey(ms[j]);
    }
  }

  lemma SameIndex<T>(s: seq<T>, key: T -> string, i: nat, j: nat)
    requires DistinctKeys(s, key) && i < |s| && j < |s| && key(s[i]) == key(s[j])
    ensures i == j
  {
  }

  lemma DistinctDetermine<T(!new)>(s: seq<T>, key: T -> string)
    requires DistinctKeys(s, key)
    ensures KeyDetermines(s, key)
  {
    forall i, j | 0 <= i < |s| && 0 <= j < |s| && key(s[i]) == key(s[j]) ensures s[i] == s[j] {
      SameIndex(s, key, i, j);
    }
  }

  /** Distinctly keyed sequences of one length, one inside the other, are permutations of each other. */
  lemma {:induction false} InclusionIsPermutation(a: seq<Member>, b: seq<Member>)
    requires |a| == |b| && DistinctKeys(a, MemberKey) && forall i :: 0 <= i < |a| ==> a[i] in b
    ensures multiset(a) == multiset(b)
  {
    if a != [] {
      var j :| 0 <= j < |b| && b[j] == a[0];
      var rest := b[..j] + b[j + 1..];
      assert b == b[..j] + ([a[0]] + b[j + 1..]);
      assert a == [a[0]] + a[1..];
      forall i | 0 <= i < |a[1..]| ensures a[1..][i] in rest {
        assert a[1..][i] == a[i + 1] && a[i + 1] in b && MemberKey(a[0]) != MemberKey(a[i + 1]);
      }
      TailDistinct(a);
      InclusionIsPermutation(a[1..], rest);
    }
  }

  lemma TailDistinct(a: seq<Member>)
    requires a != [] && DistinctKeys(a, MemberKey)
    ensures DistinctKeys(a[1..], MemberKey)
  {
    assert forall i :: 0 <= i < |a[1..]| ==> a[1..][i] == a[i + 1];
  }

  /** Normal forms agree exactly on values that are equal up to key order. */
  lemma {:induction false} NormalFormDecidesSame(a: Json, b: Json)
    requires Valid(a) && Valid(b)
    ensures Normalize(a) == Normalize(b) <==> Same(a, b)
  {
    match (a, b)
    case (Arr(u), Arr(v)) => ItemsDecideSame(u, v);
    case (Obj(u), Obj(v)) => MembersDecideSame(u, v);
    case _ =>
  }

  lemma {:induction false} ItemsDecideSame(u: seq<Json>, v: seq<Json>)
    requires ValidItems(u) && ValidItems(v)
    ensures NormalizeItems(u) == NormalizeItems(v) <==> |u| == |v| && forall i :: 0 <= i < |u| ==> Same(u[i], v[i])
  {
    NormalizedLength(u);
    NormalizedLength(v);
    if |u| == |v| {
      forall i | 0 <= i < |u| ensures NormalizeItems(u)[i] == NormalizeItems(v)[i] <==> Same(u[i], v[i]) {
        NormalizedItem(u, i);
        NormalizedItem(v, i);
        ValidItem(u, i);
        ValidItem(v, i);
        NormalFormDecidesSame(u[i], v[i]);
      }
    }
  }

  lemma {:induction false} MembersDecideSame(u: seq<Member>, v: seq<Member>)
    requires ValidMembers(u) && ValidMembers(v) && DistinctKeys(u, MemberKey) && DistinctKeys(v, MemberKey)
    ensures SortBy(NormalizeMembers(u), MemberKey) == SortBy(NormalizeMembers(v), MemberKey)
       <==> |u| == |v| && forall i :: 0 <= i < |u| ==> SomeSame(u[i], v)
    decreases u
  {
    var nu, nv := NormalizeMembers(u), NormalizeMembers(v);
    NormalizedMembersLength(u);
    NormalizedMembersLength(v);
    forall i | 0 <= i < |u| ensures SomeSame(u[i], v) <==> nu[i] in nv {
      forall j | 0 <= j < |v| ensures nu[i] == nv[j] <==> u[i].key == v[j].key && Same(u[i].value, v[j].value) {
        hide Same, SortBy, DistinctKeys;
        NormalizedMember(u, i);
        NormalizedMember(v, j);
        ValidMember(u, i);
        ValidMember(v, j);
        NormalFormDecidesSame(u[i].value, v[j].value);
      }
    }
    hide Same, SomeSame, Normalize, NormalizeMembers, Valid, ValidMembers;
    NormalizedDistinct(u);
    NormalizedDistinct(v);
    SortsAgree(nu, nv);
  }

  /** Distinctly keyed sequences sort alike exactly when one lies inside the other and the lengths agree. */
  lemma SortsAgree(a: seq<Member>, b: seq<Member>)
    requires DistinctKeys(a, MemberKey) && DistinctKeys(b, MemberKey)
    ensures SortBy(a, MemberKey) == SortBy(b, MemberKey) <==> |a| == |b| && forall i :: 0 <= i < |a| ==> a[i] in b
  {
    SortBySorts(a, MemberKey);
    SortBySorts(b, MemberKey);
    if SortBy(a, MemberKey) == SortBy(b, MemberKey) {
      forall i | 0 <= i < |a| ensures a[i] in b {
        assert a[i] in multiset(b);
      }
    }
    if |a| == |b| && forall i :: 0 <= i < |a| ==> a[i] in b {
      InclusionIsPermutation(a, b);
      DistinctDetermine(a, MemberKey);
      SortForgetsOrder(a, b, MemberKey);
    }
  }

  // ---------------------------------------------------------------------------
  // The results
  // ---------------------------------------------------------------------------

  lemma {:induction false} NormalFormReadable(v: Json)
    requires Valid(v)
    ensures Readable(Normalize(v))
  {
    match v
    case Arr(items) => NormalItemsReadable(items);
    case Obj(members) =>
      NormalMembersReadable(members);
      SortReadable(NormalizeMembers(members));
    case _ =>
  }

  lemma {:induction false} NormalItemsReadable(items: seq<Json>)
    requires ValidItems(items)
    ensures ReadableItems(NormalizeItems(items))
  {
    if items != [] {
      NormalFormReadable(items[0]);
      NormalItemsReadable(items[1..]);
      assert NormalizeItems(items)[1..] == NormalizeItems(items[1..]);
    }
  }

  lemma {:induction false} NormalMembersReadable(ms: seq<Member>)
    requires ValidMembers(ms)
    ensures ReadableMembers(NormalizeMembers(ms))
  {
    if ms != [] {
      NormalFormReadable(ms[0].value);
      NormalMembersReadable(ms[1..]);
      assert NormalizeMembers(ms)[1..] == NormalizeMembers(ms[1..]);
    }
  }

  lemma {:induction false} InsertReadable(m: Member, ms: seq<Member>)
    requires Readable(m.value) && ReadableMembers(ms)
    ensures ReadableMembers(Insert(m, ms, MemberKey))
  {
    if ms == [] || !StringLess(ms[0].key, m.key) {
      assert ([m] + ms)[1..] == ms;
    } else {
      InsertReadable(m, ms[1..]);
      assert ([ms[0]] + Insert(m, ms[1..], MemberKey))[1..] == Insert(m, ms[1..], MemberKey);
    }
  }

  lemma {:induction false} SortReadable(ms: seq<Member>)
    requires ReadableMembers(ms)
    ensures ReadableMembers(SortBy(ms, MemberKey))
  {
    if ms != [] {
      SortReadable(ms[1..]);
      InsertReadable(ms[0], SortBy(ms[1..], MemberKey));
    }
  }

  /** Parsing the printed text gives the value back with its keys in order: nothing else is lost. */
  lemma ParsePrinted(v: Json)
    requires Valid(v)
    ensures Parse(AuditText(v)) == Some(Normalize(v))
  {
    AuditIsPlain(v);
    NormalFormReadable(v);
    ParseReads(Normalize(v), "");
    assert Plain(Normalize(v)) + "" == Plain(Normalize(v));
  }

  /** Two values print to the same text exactly when they are equal up to key order. */
  lemma TextIsUnambiguous(a: Json, b: Json)
    requires Valid(a) && Valid(b)
    ensures AuditText(a) == AuditText(b) <==> Same(a, b)
  {
    AuditIsPlain(a);
    AuditIsPlain(b);
    ParsePrinted(a);
    ParsePrinted(b);
    NormalFormDecidesSame(a, b);
  }

  // ---------------------------------------------------------------------------
  // The two printers against each other
  // ---------------------------------------------------------------------------

  /** No object at any level has an undefined member. */
  ghost predicate MembersDefined(v: Json) {
    match v
    case Arr(items) => ItemsDefined(items)
    case Obj(members) => EachDefined(members)
    case _ => true
  }

  ghost predicate ItemsDefined(items: seq<Json>) {
    items == [] || (MembersDefined(items[0]) && ItemsDefined(items[1..]))
  }

  ghost predicate EachDefined(ms: seq<Member>) {
    ms == [] || (!ms[0].value.Undefined? && MembersDefined(ms[0].value) && EachDefined(ms[1..]))
  }

  function TotalLength(parts: seq<string>): nat {
    if parts == [] then 0 else |parts[0]| + TotalLength(parts[1..])
  }

  lemma {:induction false} JoinLength(parts: seq<string>)
    ensures |Join(parts)| == TotalLength(parts) + if parts == [] then 0 else |parts| - 1
  {
    if |parts| > 1 { JoinLength(parts[1..]); } else if |parts| == 1 { assert TotalLength(parts[1..]) == 0; }
  }

  function PrintedLength(ps: seq<Printed>): nat {
    if ps == [] then 0 else |Quote(ps[0].key)| + 1 + |ps[0].text| + PrintedLength(ps[1..])
  }

  lemma {:induction false} TextsLength(ps: seq<Printed>)
    ensures TotalLength(Texts(ps)) == PrintedLength(ps) && |Texts(ps)| == |ps|
  {
    if ps != [] {
      TextsLength(ps[1..]);
      assert Texts(ps)[1..] == Texts(ps[1..]);
    }
  }

  lemma {:induction false} InsertLength(p: Printed, ps: seq<Printed>)
    ensures PrintedLength(Insert(p, ps, PrintedKey)) == |Quote(p.key)| + 1 + |p.text| + PrintedLength(ps)
  {
    if ps == [] || !StringLess(ps[0].key, p.key) {
      assert ([p] + ps)[1..] == ps;
    } else {
      InsertLength(p, ps[1..]);
      assert ([ps[0]] + Insert(p, ps[1..], PrintedKey))[1..] == Insert(p, ps[1..], PrintedKey);
    }
  }

  lemma {:induction false} SortLength(ps: seq<Printed>)
    ensures PrintedLength(SortBy(ps, PrintedKey)) == PrintedLength(ps)
  {
    if ps != [] {
      SortLength(ps[1..]);
      InsertLength(ps[0], SortBy(ps[1..], PrintedKey));
    }
  }

  lemma BracedLength(ps: seq<Printed>)
    ensures |Braced(ps)| == 2 + PrintedLength(ps) + if ps == [] then 0 else |ps| - 1
  {
    var sorted := SortBy(ps, PrintedKey);
    SortLength(ps);
    SortBySorts(ps, PrintedKey);
    TextsLength(sorted);
    JoinLength(Texts(sorted));
  }

  /** The artifact's text is never longer, and is as long only when the two texts are equal and every member is defined. */
  lemma {:induction false} DroppingShortens(v: Json)
    ensures |ArtifactText(v)| <= |AuditText(v)|
    ensures |ArtifactText(v)| == |AuditText(v)| ==> MembersDefined(v)
    ensures MembersDefined(v) ==> ArtifactText(v) == AuditText(v)
  {
    match v
    case Arr(items) =>
      DroppingShortensItems(items);
      JoinLength(ArtifactItems(items));
      JoinLength(AuditItems(items));
    case Obj(members) =>
      DroppingShortensMembers(members);
      BracedLength(ArtifactMembers(members));
      BracedLength(AuditMembers(members));
    case _ =>
  }

  lemma {:induction false} DroppingShortensItems(items: seq<Json>)
    ensures |ArtifactItems(items)| == |AuditItems(items)| == |items|
    ensures TotalLength(ArtifactItems(items)) <= TotalLength(AuditItems(items))
    ensures TotalLength(ArtifactItems(items)) == TotalLength(AuditItems(items)) ==> ItemsDefined(items)
    ensures ItemsDefined(items) ==> ArtifactItems(items) == AuditItems(items)
  {
    if items != [] {
      DroppingShortens(items[0]);
      DroppingShortensItems(items[1..]);
      assert ArtifactItems(items)[1..] == ArtifactItems(items[1..]);
      assert AuditItems(items)[1..] == AuditItems(items[1..]);
    }
  }

  lemma {:induction false} DroppingShortensMembers(ms: seq<Member>)
    ensures |ArtifactMembers(ms)| <= |AuditMembers(ms)| == |ms|
    ensures PrintedLength(ArtifactMembers(ms)) <= PrintedLength(AuditMembers(ms))
    ensures PrintedLength(ArtifactMembers(ms)) == PrintedLength(AuditMembers(ms)) ==> EachDefined(ms)
    ensures EachDefined(ms) ==> ArtifactMembers(ms) == AuditMembers(ms)
  {
    if ms != [] {
      DroppingShortens(ms[0].value);
      DroppingShortensMembers(ms[1..]);
      assert AuditMembers(ms)[1..] == AuditMembers(ms[1..]);
      if !ms[0].value.Undefined? {
        assert ArtifactMembers(ms)[1..] == ArtifactMembers(ms[1..]);
      }
    }
  }

  /** The ledger's printer and the artifact's printer agree exactly on values without undefined object members. */
  lemma PrintersAgreeExactlyOnDefined(v: Json)
    ensures AuditText(v) == ArtifactText(v) <==> MembersDefined(v)
  {
    DroppingShortens(v);
  }
}
