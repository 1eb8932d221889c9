/**
 * A model of `JSON.stringify` and `JSON.parse` for the values the application keeps in
 * browser storage: integers, strings, arrays and objects. `Stringify` writes the compact
 * text `JSON.stringify` produces (with its escapes for quotes, backslashes and control
 * characters); `Parse` reads that compact form back, and the two are proved inverse.
 */
module Json {
  import opened Wrappers

  datatype Json =
    | JNum(n: int)
    | JStr(s: string)
    | JArr(items: seq<Json>)
    | JObj(members: seq<Member>)

  /** One `"key":value` pair of an object, in insertion order. */
  datatype Member = Member(key: string, value: Json)

  // ----- characters -----

  predicate IsDigit(c: char) {
    '0' <= c <= '9'
  }

  predicate IsHexDigit(c: char) {
    IsDigit(c) || 'a' <= c <= 'f' || 'A' <= c <= 'F'
  }

  function DigitChar(d: nat): (c: char)
    requires d < 10
    ensures IsDigit(c)
  {
    ('0' as int + d) as char
  }

  /** Lower-case hexadecimal digit, as `JSON.stringify` writes in `\u00XX` escapes. */
  function HexDigit(d: nat): (c: char)
    requires d < 16
    ensures IsHexDigit(c)
  {
    if d < 10 then DigitChar(d) else ('a' as int + d - 10) as char
  }

  function DigitValue(c: char): (v: nat)
    requires IsDigit(c)
    ensures v < 10
  {
    c as int - '0' as int
  }

  function HexValue(c: char): (v: nat)
    requires IsHexDigit(c)
    ensures v < 16
  {
    if IsDigit(c) then DigitValue(c)
    else if 'a' <= c <= 'f' then c as int - 'a' as int + 10
    else c as int - 'A' as int + 10
  }

  // ----- JSON.stringify -----

  /** Decimal digits of a natural number, most significant first, without leading zeros. */
  function Digits(n: nat): (r: string)
    ensures r != [] && forall k :: 0 <= k < |r| ==> IsDigit(r[k])
    ensures r[0] == '0' ==> n == 0
  {
    if n < 10 then [DigitChar(n)] else Digits(n / 10) + [DigitChar(n % 10)]
  }

  function NumberText(n: int): string {
    if n < 0 then "-" + Digits(-n) else Digits(n)
  }

  /** The escape `JSON.stringify` uses for one character of a string. */
  function EscapeChar(c: char): string {
    if c == '"' then "\\\""
    else if c == '\\' then "\\\\"
    else if c == '\U{8}' then "\\b"
    else if c == '\U{C}' then "\\f"
    else if c == '\n' then "\\n"
    else if c == '\r' then "\\r"
    else if c == '\t' then "\\t"
    else if c < ' ' then "\\u00" + [HexDigit(c as int / 16), HexDigit(c as int % 16)]
    else [c]
  }

  function Escape(s: string): string {
    if s == [] then "" else EscapeChar(s[0]) + Escape(s[1..])
  }

  function Quote(s: string): string {
    "\"" + Escape(s) + "\""
  }

  function Stringify(j: Json): string {
    match j
    case JNum(n) => NumberText(n)
    case JStr(s) => Quote(s)
    case JArr(items) => "[" + StringifyItems(items) + "]"
    case JObj(members) => "{" + StringifyMembers(members) + "}"
  }

  function StringifyItems(items: seq<Json>): string {
    if items == [] then ""
    else if |items| == 1 then Stringify(items[0])
    else Stringify(items[0]) + "," + StringifyItems(items[1..])
  }

  function StringifyMembers(members: seq<Member>): string {
    if members == [] then ""
    else if |members| == 1 then Quote(members[0].key) + ":" + Stringify(members[0].value)
    else Quote(members[0].key) + ":" + Stringify(members[0].value) + "," + StringifyMembers(members[1..])
  }

  // ----- JSON.parse, for compact text -----

  /** The longest run of decimal digits at the start of `s`. */
  function DigitRun(s: string): (r: string)
    ensures r <= s && forall k :: 0 <= k < |r| ==> IsDigit(r[k])
    ensures |r| < |s| ==> !IsDigit(s[|r|])
  {
    if s != [] && IsDigit(s[0]) then [s[0]] + DigitRun(s[1..]) else []
  }

  function DigitsValue(ds: string): nat
    requires forall k :: 0 <= k < |ds| ==> IsDigit(ds[k])
  {
    if ds == [] then 0
    else DigitsValue(ds[..|ds| - 1]) * 10 + DigitValue(ds[|ds| - 1])
  }

  /** A natural number with no leading zero, and the text after it. */
  function ParseNat(s: string): (r: Option<(nat, string)>)
    ensures r.Some? ==> |r.value.1| < |s|
  {
    var ds := DigitRun(s);
    if ds == [] || (ds[0] == '0' && |ds| > 1) then None
    else Some((DigitsValue(ds), s[|ds|..]))
  }

  function ParseNumber(s: string): (r: Option<(int, string)>)
    ensures r.Some? ==> |r.value.1| < |s|
  {
    if s != [] && s[0] == '-' then
      match ParseNat(s[1..])
      case None => None
      case Some((n, rest)) => Some((-(n as int), rest))
    else
      match ParseNat(s)
      case None => None
      case Some((n, rest)) => Some((n as int, rest))
  }

  /** The character an escape (after its backslash) stands for, and the text after the escape. */
  function ParseEscape(s: string): (r: Option<(char, string)>)
    ensures r.Some? ==> |r.value.1| < |s|
  {
    if s == [] then None
    else if s[0] == '"' then Some(('"', s[1..]))
    else if s[0] == '\\' then Some(('\\', s[1..]))
    else if s[0] == '/' then Some(('/', s[1..]))
    else if s[0] == 'b' then Some(('\U{8}', s[1..]))
    else if s[0] == 'f' then Some(('\U{C}', s[1..]))
    else if s[0] == 'n' then Some(('\n', s[1..]))
    else if s[0] == 'r' then Some(('\r', s[1..]))
    else if s[0] == 't' then Some(('\t', s[1..]))
    else if s[0] == 'u' && |s| >= 5 && IsHexDigit(s[1]) && IsHexDigit(s[2]) && IsHexDigit(s[3]) && IsHexDigit(s[4]) then
      var v := HexValue(s[1]) * 4096 + HexValue(s[2]) * 256 + HexValue(s[3]) * 16 + HexValue(s[4]);
      if 0xD800 <= v < 0xE000 then None else Some((v as char, s[5..]))
    else None
  }

  /** The body of a string literal up to its closing quote, and the text after that quote. */
  function ParseChars(s: string): (r: Option<(string, string)>)
    ensures r.Some? ==> |r.value.1| < |s|
  {
    if s == [] then None
    else if s[0] == '"' then Some(([], s[1..]))
    else if s[0] == '\\' then
      match ParseEscape(s[1..])
      case None => None
      case Some((c, after)) =>
        match ParseChars(after)
        case None => None
        case Some((body, rest)) => Some(([c] + body, rest))
    else if s[0] < ' ' then None
    else
      match ParseChars(s[1..])
      case None => None
      case Some((body, rest)) => Some(([s[0]] + body, rest))
  }

  function ParseValue(s: string): (r: Option<(Json, string)>)
    ensures r.Some? ==> |r.value.1| < |s|
    decreases |s|, 0
  {
    if s == [] then None
    else if s[0] == '"' then
      match ParseChars(s[1..])
      case None => None
      case Some((body, rest)) => Some((JStr(body), rest))
    else if s[0] == '[' then
      if |s| > 1 && s[1] == ']' then Some((JArr([]), s[2..]))
      else
        match ParseItems(s[1..])
        case None => None
        case Some((items, rest)) => Some((JArr(items), rest))
    else if s[0] == '{' then
      if |s| > 1 && s[1] == '}' then Some((JObj([]), s[2..]))
      else
        match ParseMembers(s[1..])
        case None => None
        case Some((members, rest)) => Some((JObj(members), rest))
    else
      match ParseNumber(s)
      case None => None
      case Some((n, rest)) => Some((JNum(n), rest))
  }

  /** `value (, value)* ]`: the items of a non-empty array and the text after its `]`. */
  function ParseItems(s: string): (r: Option<(seq<Json>, string)>)
    ensures r.Some? ==> |r.value.1| < |s|
    decreases |s|, 1
  {
    match ParseValue(s)
    case None => None
    case Some((v, rest)) =>
      if rest != [] && rest[0] == ']' then Some(([v], rest[1..]))
      else if rest != [] && rest[0] == ',' then
        match ParseItems(rest[1..])
        case None => None
        case Some((vs, rest')) => Some(([v] + vs, rest'))
      else None
  }

  /** `"key":value (, "key":value)* }`: the members of a non-empty object and the text after its `}`. */
  function ParseMembers(s: string): (r: Option<(seq<Member>, string)>)
    ensures r.Some? ==> |r.value.1| < |s|
    decreases |s|, 1
  {
    if s == [] || s[0] != '"' then None
    else
      match ParseChars(s[1..])
      case None => None
      case Some((key, afterKey)) =>
        if afterKey == [] || afterKey[0] != ':' then None
        else
          match ParseValue(afterKey[1..])
          case None => None
          case Some((v, rest)) =>
            if rest != [] && rest[0] == '}' then Some(([Member(key, v)], rest[1..]))
            else if rest != [] && rest[0] == ',' then
              match ParseMembers(rest[1..])
              case None => None
              case Some((ms, rest')) => Some(([Member(key, v)] + ms, rest'))
            else None
  }

  /** `JSON.parse(s)`: `None` where the real parser would throw. */
  function Parse(s: string): Option<Json> {
    match ParseValue(s)
    case Some((j, rest)) => if rest == [] then Some(j) else None
    case None => None
  }

  // ----- Parse inverts Stringify -----

  /** What may follow a value inside stringified text: nothing, or a separator or closer. */
  predicate Follows(rest: string) {
    rest == [] || rest[0] == ',' || rest[0] == ']' || rest[0] == '}'
  }

  /** The round trip every stored value relies on: parsing a stringified value gives it back. */
  lemma ParseStringify(j: Json)
    ensures Parse(Stringify(j)) == Some(j)
  {
    assert Stringify(j) + [] == Stringify(j);
    ParseValueStringify(j, []);
  }

  lemma {:induction false} DigitRunOf(ds: string, rest: string)
    requires forall k :: 0 <= k < |ds| ==> IsDigit(ds[k])
    requires rest == [] || !IsDigit(rest[0])
    ensures DigitRun(ds + rest) == ds
  {
    if ds != [] {
      assert (ds + rest)[1..] == ds[1..] + rest;
      DigitRunOf(ds[1..], rest);
    } else {
      assert ds + rest == rest;
    }
  }

  lemma {:induction false} DigitsValueOf(n: nat)
    ensures DigitsValue(Digits(n)) == n
  {
    if n >= 10 {
      var ds := Digits(n);
      assert ds[..|ds| - 1] == Digits(n / 10);
      DigitsValueOf(n / 10);
    }
  }

  lemma ParseNumberText(n: int, rest: string)
    requires rest == [] || !IsDigit(rest[0])
    ensures ParseNumber(NumberText(n) + rest) == Some((n, rest))
  {
    var m: nat := if n < 0 then -n else n;
    ParseDigits(m, rest);
    var tail := Digits(m) + rest;
    if n < 0 {
      assert NumberText(n) + rest == "-" + tail;
      ParseNegative(tail, m, rest);
    } else {
      assert NumberText(n) + rest == tail;
      assert tail[0] == Digits(m)[0];
    }
  }

  lemma ParseNegative(tail: string, m: nat, rest: string)
    requires ParseNat(tail) == Some((m, rest))
    ensures ParseNumber("-" + tail) == Some((-(m as int), rest))
  {
    assert ("-" + tail)[1..] == tail;
  }

  /** The digits of a natural number read back as that number, up to the first non-digit. */
  lemma ParseDigits(m: nat, rest: string)
    requires rest == [] || !IsDigit(rest[0])
    ensures ParseNat(Digits(m) + rest) == Some((m, rest))
  {
    var ds := Digits(m);
    DigitRunOf(ds, rest);
    DigitsValueOf(m);
    assert (ds + rest)[|ds|..] == rest;
  }

  lemma HexRoundTrip(d: nat)
    requires d < 16
    ensures HexValue(HexDigit(d)) == d
  {
  }

  /** Reading one escaped character gives that character back and continues right after it. */
  lemma ParseCharsStep(c: char, tail: string)
    ensures ParseChars(EscapeChar(c) + tail) ==
      match ParseChars(tail)
      case None => None
      case Some((body, rest)) => Some(([c] + body, rest))
  {
    var s := EscapeChar(c) + tail;
    if c == '"' || c == '\\' || c == '\U{8}' || c == '\U{C}' || c == '\n' || c == '\r' || c == '\t' {
      assert s[1..][1..] == tail;
      assert ParseEscape(s[1..]) == Some((c, tail));
    } else if c < ' ' {
      var hi, lo := c as int / 16, c as int % 16;
      HexRoundTrip(hi);
      HexRoundTrip(lo);
      assert s[1..][0] == 'u';
      assert s[1..][5..] == tail;
      assert s[1..][1] == '0' && s[1..][2] == '0';
      assert s[1..][3] == HexDigit(hi) && s[1..][4] == HexDigit(lo);
    } else {
      assert s[1..] == tail;
    }
  }

  lemma {:induction false} ParseEscaped(body: string, rest: string)
    ensures ParseChars(Escape(body) + "\"" + rest) == Some((body, rest))
  {
    if body == [] {
      assert Escape(body) + "\"" + rest == "\"" + rest;
    } else {
      var tail := Escape(body[1..]) + "\"" + rest;
      assert Escape(body) + "\"" + rest == EscapeChar(body[0]) + tail;
      ParseEscaped(body[1..], rest);
      ParseCharsStep(body[0], tail);
      assert [body[0]] + body[1..] == body;
    }
  }

  /** Stringified text never starts with a closing bracket or brace. */
  lemma StringifyStart(j: Json)
    ensures Stringify(j) != []
    ensures Stringify(j)[0] != ']' && Stringify(j)[0] != '}'
    ensures j.JNum? ==> Stringify(j)[0] == '-' || IsDigit(Stringify(j)[0])
  {
    match j
    case JNum(n) =>
      if n >= 0 { assert Stringify(j) == Digits(n); }
    case JStr(_) =>
    case JArr(items) =>
    case JObj(_) =>
  }

  lemma {:induction false} ParseValueStringify(j: Json, rest: string)
    requires Follows(rest)
    ensures ParseValue(Stringify(j) + rest) == Some((j, rest))
    decreases j, 1
  {
    match j
    case JNum(n) =>
      ParseNumValue(n, rest);
    case JStr(body) =>
      ParseStrValue(body, rest);
    case JArr(items) =>
      if items == [] {
        assert (Stringify(j) + rest)[2..] == rest;
      } else {
        ParseArrayStringify(items, rest);
      }
    case JObj(members) =>
      if members == [] {
        assert (Stringify(j) + rest)[2..] == rest;
      } else {
        ParseObjectStringify(members, rest);
      }
  }

  lemma ParseNumValue(n: int, rest: string)
    requires Follows(rest)
    ensures ParseValue(Stringify(JNum(n)) + rest) == Some((JNum(n), rest))
  {
    StringifyStart(JNum(n));
    ParseNumberText(n, rest);
  }

  lemma ParseStrValue(body: string, rest: string)
    ensures ParseValue(Stringify(JStr(body)) + rest) == Some((JStr(body), rest))
  {
    var s := Stringify(JStr(body)) + rest;
    assert s[1..] == Escape(body) + "\"" + rest;
    ParseEscaped(body, rest);
  }

  lemma {:induction false} ParseArrayStringify(items: seq<Json>, rest: string)
    requires items != []
    ensures ParseValue(Stringify(JArr(items)) + rest) == Some((JArr(items), rest))
    decreases items, 1
  {
    var inner := StringifyItems(items) + "]" + rest;
    Regroup("[", StringifyItems(items), "]", rest);
    FirstItemChar(items, "]" + rest);
    ParseItemsStringify(items, rest);
    ParseOpenBracket(Stringify(JArr(items)) + rest, inner);
  }

  lemma Regroup3(a: string, b: string, c: string)
    ensures a + b + c == a + (b + c)
  {
  }

  lemma Regroup(a: string, b: string, c: string, d: string)
    ensures a + b + c + d == a + (b + c + d)
  {
  }

  lemma FirstItemChar(items: seq<Json>, t: string)
    requires items != []
    ensures StringifyItems(items) + t != [] && (StringifyItems(items) + t)[0] != ']'
  {
    StringifyStart(items[0]);
    var f := Stringify(items[0]);
    if |items| > 1 {
      assert StringifyItems(items) + t == f + ("," + StringifyItems(items[1..]) + t);
    } else {
      assert StringifyItems(items) + t == f + t;
    }
  }

  lemma ParseOpenBracket(s: string, inner: string)
    requires s == "[" + inner && inner != [] && inner[0] != ']'
    ensures ParseValue(s) == match ParseItems(inner)
      case None => None
      case Some((items, rest)) => Some((JArr(items), rest))
  {
    assert s[1..] == inner;
  }

  lemma {:induction false} ParseObjectStringify(members: seq<Member>, rest: string)
    requires members != []
    ensures ParseValue(Stringify(JObj(members)) + rest) == Some((JObj(members), rest))
    decreases members, 1
  {
    var inner := StringifyMembers(members) + "}" + rest;
    Regroup("{", StringifyMembers(members), "}", rest);
    SplitMembers(members, rest);
    ParseMembersStringify(members, rest);
    ParseOpenBrace(Stringify(JObj(members)) + rest, inner);
  }

  lemma ParseOpenBrace(s: string, inner: string)
    requires s == "{" + inner && inner != [] && inner[0] != '}'
    ensures ParseValue(s) == match ParseMembers(inner)
      case None => None
      case Some((members, rest)) => Some((JObj(members), rest))
  {
    assert s[1..] == inner;
  }

  lemma {:induction false} ParseItemsStringify(items: seq<Json>, rest: string)
    requires items != []
    ensures ParseItems(StringifyItems(items) + "]" + rest) == Some((items, rest))
    decreases items, 0
  {
    var v := items[0];
    var after: string;
    if |items| == 1 {
      after := "]" + rest;
      SplitLastItem(items, rest);
    } else {
      after := "," + (StringifyItems(items[1..]) + "]" + rest);
      SplitFirstItem(items, rest);
    }
    ParseValueStringify(v, after);
    ItemsStep(Stringify(v) + after, v, after);
    if |items| == 1 {
      assert after[1..] == rest;
      assert [v] == items;
    } else {
      assert after[1..] == StringifyItems(items[1..]) + "]" + rest;
      ParseItemsStringify(items[1..], rest);
      assert [v] + items[1..] == items;
    }
  }

  lemma SplitLastItem(items: seq<Json>, rest: string)
    requires |items| == 1
    ensures StringifyItems(items) + "]" + rest == Stringify(items[0]) + ("]" + rest)
  {
    var v := Stringify(items[0]);
    assert StringifyItems(items) == v;
    Regroup3(v, "]", rest);
  }

  lemma SplitFirstItem(items: seq<Json>, rest: string)
    requires |items| > 1
    ensures StringifyItems(items) + "]" + rest ==
      Stringify(items[0]) + ("," + (StringifyItems(items[1..]) + "]" + rest))
  {
    var v, tail := Stringify(items[0]), StringifyItems(items[1..]);
    assert StringifyItems(items) == v + "," + tail;
    Regroup5(v, ",", tail, "]", rest);
  }

  /** One step of `ParseItems` once its first value has been read. */
  lemma ItemsStep(s: string, v: Json, after: string)
    requires ParseValue(s) == Some((v, after))
    ensures ParseItems(s) ==
      if after != [] && after[0] == ']' then Some(([v], after[1..]))
      else if after != [] && after[0] == ',' then
        match ParseItems(after[1..])
        case None => None
        case Some((vs, rest')) => Some(([v] + vs, rest'))
      else None
  {
  }

  /** After the opening quote of a key: the key, then the text after its closing quote. */
  lemma ParseKey(key: string, t: string)
    ensures ParseChars((Quote(key) + t)[1..]) == Some((key, t))
  {
    assert (Quote(key) + t)[1..] == Escape(key) + "\"" + t;
    ParseEscaped(key, t);
  }

  lemma {:induction false} ParseMembersStringify(members: seq<Member>, rest: string)
    requires members != []
    ensures ParseMembers(StringifyMembers(members) + "}" + rest) == Some((members, rest))
    decreases members, 0
  {
    var m := members[0];
    var after := if |members| == 1 then "}" + rest else "," + (StringifyMembers(members[1..]) + "}" + rest);
    var s := StringifyMembers(members) + "}" + rest;
    SplitMembers(members, rest);
    ParseKey(m.key, ":" + (Stringify(m.value) + after));
    ParseValueStringify(m.value, after);
    MembersStep(s, m.key, ":" + (Stringify(m.value) + after), m.value, after);
    if |members| == 1 {
      assert after[1..] == rest;
      assert [Member(m.key, m.value)] == members;
    } else {
      assert after[1..] == StringifyMembers(members[1..]) + "}" + rest;
      ParseMembersStringify(members[1..], rest);
      assert [Member(m.key, m.value)] + members[1..] == members;
    }
  }

  lemma SplitMembers(members: seq<Member>, rest: string)
    requires members != []
    ensures StringifyMembers(members) + "}" + rest ==
      Quote(members[0].key) + (":" + (Stringify(members[0].value) +
        (if |members| == 1 then "}" + rest else "," + (StringifyMembers(members[1..]) + "}" + rest))))
  {
    var q, v := Quote(members[0].key), Stringify(members[0].value);
    if |members| == 1 {
      assert StringifyMembers(members) == q + ":" + v;
      Regroup5(q, ":", v, "}", rest);
    } else {
      var tail := StringifyMembers(members[1..]);
      assert StringifyMembers(members) == q + ":" + v + "," + tail;
      Regroup7(q, ":", v, ",", tail, "}", rest);
    }
  }

  lemma Regroup5(a: string, b: string, c: string, d: string, e: string)
    ensures a + b + c + d + e == a + (b + (c + (d + e)))
  {
  }

  lemma Regroup7(a: string, b: string, c: string, d: string, e: string, f: string, g: string)
    ensures a + b + c + d + e + f + g == a + (b + (c + (d + (e + f + g))))
  {
  }

  /** One step of `ParseMembers` once its first key and value have been read. */
  lemma MembersStep(s: string, key: string, afterKey: string, v: Json, after: string)
    requires s != [] && s[0] == '"'
    requires ParseChars(s[1..]) == Some((key, afterKey))
    requires afterKey != [] && afterKey[0] == ':'
    requires ParseValue(afterKey[1..]) == Some((v, after))
    ensures ParseMembers(s) ==
      if after != [] && after[0] == '}' then Some(([Member(key, v)], after[1..]))
      else if after != [] && after[0] == ',' then
        match ParseMembers(after[1..])
        case None => None
        case Some((ms, rest')) => Some(([Member(key, v)] + ms, rest'))
      else None
  {
  }

  // ----- Property access on a parsed object -----

  /**
   * `obj[key]` on an object parsed from text: when a key is repeated the last
   * occurrence wins, as with `JSON.parse`; `None` stands for `undefined`.
   */
  function Lookup(members: seq<Member>, key: string): (r: Option<Json>)
    ensures r.Some? ==> exists i :: 0 <= i < |members| && members[i] == Member(key, r.value)
    ensures r.None? ==> forall i :: 0 <= i < |members| ==> members[i].key != key
  {
    if members == [] then None
    else if members[|members| - 1].key == key then Some(members[|members| - 1].value)
    else Lookup(members[..|members| - 1], key)
  }

  /** A key that no later member repeats is looked up to its own value. */
  lemma {:induction false} LookupLast(members: seq<Member>, i: nat)
    requires i < |members|
    requires forall j :: i < j < |members| ==> members[j].key != members[i].key
    ensures Lookup(members, members[i].key) == Some(members[i].value)
    decreases |members|
  {
    if i < |members| - 1 {
      var init := members[..|members| - 1];
      assert init[i] == members[i];
      LookupLast(init, i);
    }
  }

  /** A string-valued property, `None` when it is absent or not a string. */
  function StrField(members: seq<Member>, key: string): Option<string> {
    match Lookup(members, key)
    case Some(JStr(v)) => Some(v)
    case _ => None
  }

  /** A string member that no later member repeats reads back as its string. */
  lemma ReadString(ms: seq<Member>, i: nat, v: string)
    requires i < |ms| && ms[i].value == JStr(v)
    requires forall j :: i < j < |ms| ==> ms[j].key != ms[i].key
    ensures StrField(ms, ms[i].key) == Some(v)
  {
    LookupLast(ms, i);
  }

  /** A number-valued property, `None` when it is absent or not a number. */
  function NumField(members: seq<Member>, key: string): Option<int> {
    match Lookup(members, key)
    case Some(JNum(n)) => Some(n)
    case _ => None
  }
}
