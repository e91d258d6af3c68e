/** JSON values as the relay and the extension see them, and the text `JSON.stringify` gives them. */
module Json {
  import opened Prelude
  import opened Text

  datatype Json =
    | JNull
    | JBool(b: bool)
    | JNumber(n: int)
    | JDecimal(text: Decimal)
    | JString(s: string)
    | JArray(items: seq<Json>)
    | JObject(fields: seq<Field>)

  datatype Field = Field(key: string, value: Json)

  predicate IsDigit(c: char) { '0' <= c <= '9' }

  predicate IsNumberChar(c: char) { IsDigit(c) || c == '+' || c == '-' || c == '.' || c == 'e' || c == 'E' }

  /** Where the digits that start at `i` end. */
  function DigitsEnd(s: string, i: nat): (e: nat)
    requires i <= |s|
    ensures i <= e <= |s| && (e < |s| ==> !IsDigit(s[e]))
    ensures forall k :: i <= k < e ==> IsDigit(s[k])
    decreases |s| - i
  {
    if i < |s| && IsDigit(s[i]) then DigitsEnd(s, i + 1) else i
  }

  /** A number of the JSON grammar (RFC 8259, section 6): sign, digits, fraction, exponent. */
  predicate IsNumeral(s: string) {
    var i := if s != "" && s[0] == '-' then 1 else 0;
    var e := DigitsEnd(s, i);
    e > i && (s[i] == '0' ==> e == i + 1) && IsFraction(s, e)
  }

  predicate IsFraction(s: string, i: nat)
    requires i <= |s|
  {
    if i < |s| && s[i] == '.' then DigitsEnd(s, i + 1) > i + 1 && IsExponent(s, DigitsEnd(s, i + 1)) else IsExponent(s, i)
  }

  predicate IsExponent(s: string, i: nat)
    requires i <= |s|
  {
    i == |s| ||
    ((s[i] == 'e' || s[i] == 'E') &&
     var j := if i + 1 < |s| && (s[i + 1] == '+' || s[i + 1] == '-') then i + 2 else i + 1;
     DigitsEnd(s, j) > j && DigitsEnd(s, j) == |s|)
  }

  predicate IsPlain(s: string) { '.' !in s && 'e' !in s && 'E' !in s }

  lemma NumeralChars(s: string)
    requires IsNumeral(s)
    ensures s != "" && forall c :: c in s ==> IsNumberChar(c)
  {
    var i := if s[0] == '-' then 1 else 0;
    var e := DigitsEnd(s, i);
    var f := if e < |s| && s[e] == '.' then DigitsEnd(s, e + 1) else e;
    forall k | 0 <= k < |s|
      ensures IsNumberChar(s[k])
    {
      assert k < e || (k == e && e < f) || (e < k < f) || f <= k;
    }
  }

  /** The text of a number that is not printed as plain digits, such as 0.5 or 1e+21. */
  type Decimal = s: string | IsNumeral(s) && !IsPlain(s) witness "0.5"

  function Lookup(fields: seq<Field>, key: string): Option<Json> {
    if fields == [] then None
    else if fields[0].key == key then Some(fields[0].value)
    else Lookup(fields[1..], key)
  }

  /** `v.key` on a parsed value; None is `undefined`. Arrays carry none of the keys the guards read. */
  function Prop(v: Json, key: string): Option<Json> {
    if v.JObject? then Lookup(v.fields, key) else None
  }

  /** `v ?? null` */
  function OrNull(v: Option<Json>): Json { if v.Some? then v.value else JNull }

  /** A member of an object literal; a value that is `undefined` leaves no trace in the JSON. */
  datatype Member = Member(key: string, value: Option<Json>)

  function ObjectFields(members: seq<Member>): seq<Field> {
    if members == [] then []
    else if members[0].value.None? then ObjectFields(members[1..])
    else [Field(members[0].key, members[0].value.value)] + ObjectFields(members[1..])
  }

  function Object(members: seq<Member>): Json { JObject(ObjectFields(members)) }

  lemma {:induction false} AbsentKey(members: seq<Member>, key: string)
    requires forall i :: 0 <= i < |members| ==> members[i].key != key
    ensures Lookup(ObjectFields(members), key) == None
  {
    if members != [] {
      AbsentKey(members[1..], key);
    }
  }

  lemma {:induction false} ObjectProp(members: seq<Member>, i: nat)
    requires i < |members|
    requires forall j, k :: 0 <= j < k < |members| ==> members[j].key != members[k].key
    ensures Prop(Object(members), members[i].key) == members[i].value
  {
    if i == 0 {
      AbsentKey(members[1..], members[0].key);
    } else {
      ObjectProp(members[1..], i - 1);
    }
  }

  /** `typeof v === "object" && v !== null`: arrays count as records. */
  predicate IsRecord(v: Json) { v.JArray? || v.JObject? }

  // ---- JSON.stringify(value, null, gap) ----

  function Repeat(c: char, n: nat): string { seq(n, _ => c) }

  /** The line break and indentation put before a member at the given depth; nothing without a gap. */
  function NewLine(gap: nat, depth: nat): string {
    if gap == 0 then "" else "\n" + Repeat(' ', gap * depth)
  }

  function Print(v: Json, gap: nat, depth: nat): string
    decreases v, 1
  {
    match v
    case JNull => "null"
    case JBool(b) => if b then "true" else "false"
    case JNumber(n) => if n < 0 then "-" + Digits(-n) else Digits(n)
    case JDecimal(text) => text
    case JString(s) => Quote(s)
    case JArray(items) =>
      if items == [] then "[]"
      else "[" + NewLine(gap, depth + 1) + PrintItems(items, gap, depth + 1) + NewLine(gap, depth) + "]"
    case JObject(fields) =>
      if fields == [] then "{}"
      else "{" + NewLine(gap, depth + 1) + PrintFields(fields, gap, depth + 1) + NewLine(gap, depth) + "}"
  }

  function PrintItems(items: seq<Json>, gap: nat, depth: nat): string
    requires items != []
    decreases items, 0
  {
    var first := Print(items[0], gap, depth);
    if |items| == 1 then first
    else first + "," + NewLine(gap, depth) + PrintItems(items[1..], gap, depth)
  }

  function PrintFields(fields: seq<Field>, gap: nat, depth: nat): string
    requires fields != []
    decreases fields, 0
  {
    var first := Quote(fields[0].key) + (if gap == 0 then ":" else ": ") + Print(fields[0].value, gap, depth);
    if |fields| == 1 then first
    else first + "," + NewLine(gap, depth) + PrintFields(fields[1..], gap, depth)
  }

  function Digits(n: nat): string {
    if n < 10 then [Digit(n)] else Digits(n / 10) + [Digit(n % 10)]
  }

  function Digit(n: nat): (c: char)
    requires n < 16
    ensures !IsWhitespace(c)
  {
    "0123456789abcdef"[n]
  }

  function Quote(s: string): string { "\"" + QuoteBody(s) + "\"" }

  function QuoteBody(s: string): string {
    if s == "" then "" else QuoteChar(s[0]) + QuoteBody(s[1..])
  }

  /** QuoteJSONString of ECMA-262, section 25.5.2.3. */
  function QuoteChar(c: char): string {
    if c == '\"' then "\\\""
    else if c == '\\' then "\\\\"
    else if c == '\U{0008}' then "\\b"
    else if c == '\t' then "\\t"
    else if c == '\n' then "\\n"
    else if c == '\U{000C}' then "\\f"
    else if c == '\r' then "\\r"
    else if c < ' ' then "\\u00" + [Digit(c as int / 16), Digit(c as int % 16)]
    else [c]
  }

  // ---- what every printed text looks like ----

  /** No blank line, no line break at either end, no carriage return, no leading whitespace;
      and when `oneLine` is set, no line feed at all. */
  ghost predicate Tidy(s: string, oneLine: bool) {
    && s != ""
    && !IsWhitespace(s[0])
    && s[|s| - 1] != '\n'
    && '\r' !in s
    && (forall i: nat :: !BlankAt(s, i))
    && (oneLine ==> '\n' !in s)
  }

  lemma TidyGlue(a: string, gap: nat, depth: nat, b: string)
    requires Tidy(a, gap == 0) && Tidy(b, gap == 0)
    ensures Tidy(a + NewLine(gap, depth) + b, gap == 0)
  {
    var m := NewLine(gap, depth);
    var s := a + m + b;
    assert s[0] == a[0] && s[|s| - 1] == b[|b| - 1];
    forall i: nat
      ensures !BlankAt(s, i)
    {
      assert BlankAt(s, i) && i + 2 <= |a| ==> BlankAt(a, i);
      assert BlankAt(s, i) && i >= |a| + |m| ==> BlankAt(b, i - |a| - |m|);
    }
  }

  lemma TidyConcat(a: string, b: string, oneLine: bool)
    requires Tidy(a, oneLine) && Tidy(b, oneLine)
    ensures Tidy(a + b, oneLine)
  {
    forall i: nat
      ensures !BlankAt(a + b, i)
    {
      assert BlankAt(a + b, i) && i + 2 <= |a| ==> BlankAt(a, i);
      assert BlankAt(a + b, i) && i >= |a| ==> BlankAt(b, i - |a|);
    }
  }

  lemma TidyAppend(a: string, b: string, oneLine: bool)
    requires Tidy(a, oneLine) && '\n' !in b && '\r' !in b
    ensures Tidy(a + b, oneLine)
  {
    forall i: nat
      ensures !BlankAt(a + b, i)
    {
      assert BlankAt(a + b, i) ==> BlankAt(a, i);
    }
  }

  lemma {:induction false} QuoteBodyOneLine(s: string)
    ensures '\n' !in QuoteBody(s) && '\r' !in QuoteBody(s)
  {
    if s != "" {
      QuoteBodyOneLine(s[1..]);
      assert '\n' !in QuoteChar(s[0]) && '\r' !in QuoteChar(s[0]);
    }
  }

  lemma QuoteTidy(s: string, oneLine: bool)
    ensures Tidy(Quote(s), oneLine)
  {
    QuoteBodyOneLine(s);
    TidyAppend("\"", QuoteBody(s), oneLine);
    TidyAppend("\"" + QuoteBody(s), "\"", oneLine);
  }

  lemma {:induction false} DigitsTidy(n: nat, oneLine: bool)
    ensures Tidy(Digits(n), oneLine)
  {
    if n >= 10 {
      DigitsTidy(n / 10, oneLine);
      TidyAppend(Digits(n / 10), [Digit(n % 10)], oneLine);
    }
  }

  lemma WordTidy(s: string, oneLine: bool)
    requires s != "" && !IsWhitespace(s[0]) && '\n' !in s && '\r' !in s
    ensures Tidy(s, oneLine)
  {
  }

  lemma NumberTidy(n: int, oneLine: bool)
    ensures Tidy(Print(JNumber(n), 0, 0), oneLine)
  {
    DigitsTidy(if n < 0 then -n else n, oneLine);
    if n < 0 {
      TidyConcat("-", Digits(-n), oneLine);
    }
  }

  predicate IsScalar(v: Json) { !v.JArray? && !v.JObject? }

  lemma ScalarTidy(v: Json, gap: nat, depth: nat)
    requires IsScalar(v)
    ensures Tidy(Print(v, gap, depth), gap == 0)
  {
    match v
    case JNull => WordTidy("null", gap == 0);
    case JBool(b) => WordTidy(if b then "true" else "false", gap == 0);
    case JNumber(n) => NumberTidy(n, gap == 0);
    case JDecimal(text) => DecimalTidy(text, gap == 0);
    case JString(s) => QuoteTidy(s, gap == 0);
  }

  lemma NoSpace(c: char)
    requires IsNumberChar(c)
    ensures !IsWhitespace(c)
  {
  }

  lemma DecimalTidy(text: Decimal, oneLine: bool)
    ensures Tidy(text, oneLine)
  {
    NumeralChars(text);
    NoSpace(text[0]);
    WordTidy(text, oneLine);
  }

  /** Every text `JSON.stringify` produces is tidy, at every indentation. */
  lemma {:induction false} PrintTidy(v: Json, gap: nat, depth: nat)
    ensures Tidy(Print(v, gap, depth), gap == 0)
    decreases v, 1
  {
    match v
    case JArray(items) =>
      if items == [] {
        WordTidy("[]", gap == 0);
      } else {
        PrintItemsTidy(items, gap, depth + 1);
        BracketTidy("[", PrintItems(items, gap, depth + 1), "]", gap, depth);
      }
    case JObject(fields) =>
      if fields == [] {
        WordTidy("{}", gap == 0);
      } else {
        PrintFieldsTidy(fields, gap, depth + 1);
        BracketTidy("{", PrintFields(fields, gap, depth + 1), "}", gap, depth);
      }
    case _ => ScalarTidy(v, gap, depth);
  }

  lemma BracketTidy(open: string, inner: string, close: string, gap: nat, depth: nat)
    requires Tidy(inner, gap == 0) && (open == "[" || open == "{") && (close == "]" || close == "}")
    ensures Tidy(open + NewLine(gap, depth + 1) + inner + NewLine(gap, depth) + close, gap == 0)
  {
    WordTidy(open, gap == 0);
    WordTidy(close, gap == 0);
    TidyGlue(open, gap, depth + 1, inner);
    TidyGlue(open + NewLine(gap, depth + 1) + inner, gap, depth, close);
  }

  lemma {:induction false} PrintItemsTidy(items: seq<Json>, gap: nat, depth: nat)
    requires items != []
    ensures Tidy(PrintItems(items, gap, depth), gap == 0)
    decreases items, 0
  {
    PrintTidy(items[0], gap, depth);
    if |items| > 1 {
      PrintItemsTidy(items[1..], gap, depth);
      TidyAppend(Print(items[0], gap, depth), ",", gap == 0);
      TidyGlue(Print(items[0], gap, depth) + ",", gap, depth, PrintItems(items[1..], gap, depth));
    }
  }

  lemma {:induction false} PrintFieldsTidy(fields: seq<Field>, gap: nat, depth: nat)
    requires fields != []
    ensures Tidy(PrintFields(fields, gap, depth), gap == 0)
    decreases fields, 0
  {
    var key := Quote(fields[0].key);
    var colon := if gap == 0 then ":" else ": ";
    var value := Print(fields[0].value, gap, depth);
    QuoteTidy(fields[0].key, gap == 0);
    TidyAppend(key, colon, gap == 0);
    PrintTidy(fields[0].value, gap, depth);
    TidyConcat(key + colon, value, gap == 0);
    if |fields| > 1 {
      PrintFieldsTidy(fields[1..], gap, depth);
      TidyAppend(key + colon + value, ",", gap == 0);
      TidyGlue(key + colon + value + ",", gap, depth, PrintFields(fields[1..], gap, depth));
    }
  }

  /** `JSON.stringify(v)`, as put on the wire. */
  function Stringify(v: Json): string { Print(v, 0, 0) }
}
