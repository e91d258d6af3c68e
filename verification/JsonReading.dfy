/** A reader of JSON texts by recursive descent (RFC 8259), and what it makes of printed texts. */
module JsonReading {
  import opened Prelude
  import opened Json

  /** What a part of the reader takes off the front of a text, and what is left. */
  datatype Read<T> = Bad | Good(value: T, rest: string)

  predicate IsSpace(c: char) { c == ' ' || c == '\t' || c == '\n' || c == '\r' }

  function SkipSpace(s: string): (r: string)
    ensures |r| <= |s| && (r == "" || !IsSpace(r[0]))
  {
    if s != "" && IsSpace(s[0]) then SkipSpace(s[1..]) else s
  }

  function After(s: string, word: string): Option<string> {
    if |word| <= |s| && s[..|word|] == word then Some(s[|word|..]) else None
  }

  function ReadWord(s: string, word: string, v: Json): (r: Read<Json>)
    ensures r.Good? ==> |r.rest| == |s| - |word|
  {
    match After(s, word)
    case None => Bad
    case Some(rest) => Good(v, rest)
  }

  // ---- numbers ----

  function TokenLength(s: string): (n: nat)
    ensures n <= |s| && (n < |s| ==> !IsNumberChar(s[n]))
    ensures forall k :: 0 <= k < n ==> IsNumberChar(s[k])
  {
    if s != "" && IsNumberChar(s[0]) then 1 + TokenLength(s[1..]) else 0
  }

  function ValueOf(digits: string): nat
    requires forall c :: c in digits ==> IsDigit(c)
  {
    if digits == "" then 0
    else
      var last := digits[|digits| - 1];
      assert last in digits;
      10 * ValueOf(digits[..|digits| - 1]) + DigitValue(last)
  }

  function DigitValue(c: char): nat
    requires IsDigit(c)
  {
    c as int - '0' as int
  }

  /** A number without fraction and exponent is read as an integer, any other is kept as its text. */
  function NumberOf(token: string): Json
    requires IsNumeral(token)
  {
    if !IsPlain(token) then JDecimal(token)
    else
      PlainDigits(token);
      if token[0] == '-' then
        var n: int := ValueOf(token[1..]);
        JNumber(-n)
      else JNumber(ValueOf(token))
  }

  lemma PlainDigits(s: string)
    requires IsNumeral(s) && IsPlain(s)
    ensures s != "" && forall c :: c in (if s[0] == '-' then s[1..] else s) ==> IsDigit(c)
  {
    var i := if s[0] == '-' then 1 else 0;
    assert DigitsEnd(s, i) == |s|;
  }

  function ReadNumber(s: string): (r: Read<Json>)
    ensures r.Good? ==> |r.rest| < |s|
  {
    var n := TokenLength(s);
    if n > 0 && IsNumeral(s[..n]) then Good(NumberOf(s[..n]), s[n..]) else Bad
  }

  // ---- strings ----

  function HexValue(c: char): Option<nat> {
    if '0' <= c <= '9' then Some(c as int - '0' as int)
    else if 'a' <= c <= 'f' then Some(c as int - 'a' as int + 10)
    else if 'A' <= c <= 'F' then Some(c as int - 'A' as int + 10)
    else None
  }

  /** The character of four hexadecimal digits; the halves of a surrogate pair are no characters. */
  function HexChar(h: string): Option<char>
    requires |h| == 4
  {
    var a, b, c, d := HexValue(h[0]), HexValue(h[1]), HexValue(h[2]), HexValue(h[3]);
    if a.None? || b.None? || c.None? || d.None? then None
    else
      var code := 4096 * a.value + 256 * b.value + 16 * c.value + d.value;
      if code < 0xD800 || 0xE000 <= code < 0x10000 then Some(code as char) else None
  }

  /** The character that follows a backslash stands for. */
  function Unescape(c: char): Option<char> {
    if c == '\"' || c == '\\' || c == '/' then Some(c)
    else if c == 'b' then Some('\U{0008}')
    else if c == 'f' then Some('\U{000C}')
    else if c == 'n' then Some('\n')
    else if c == 'r' then Some('\r')
    else if c == 't' then Some('\t')
    else None
  }

  /** One character of a string, escaped or not. */
  function ReadChar(s: string): (r: Read<char>)
    ensures r.Good? ==> |r.rest| < |s|
  {
    if s == "" || s[0] < ' ' then Bad
    else if s[0] != '\\' then Good(s[0], s[1..])
    else if |s| >= 6 && s[1] == 'u' then
      match HexChar(s[2..6]) { case None => Bad case Some(c) => Good(c, s[6..]) }
    else if |s| >= 2 then
      match Unescape(s[1]) { case None => Bad case Some(c) => Good(c, s[2..]) }
    else Bad
  }

  /** The rest of a string, after its opening quote. */
  function ReadString(s: string): (r: Read<string>)
    ensures r.Good? ==> |r.rest| < |s|
    decreases |s|
  {
    if s != "" && s[0] == '\"' then Good("", s[1..])
    else
      match ReadChar(s)
      case Bad => Bad
      case Good(c, rest) => Prepend(c, ReadString(rest))
  }

  function Prepend(c: char, r: Read<string>): Read<string> {
    if r.Bad? then Bad else Good([c] + r.value, r.rest)
  }

  // ---- values ----

  function ReadValue(s: string): (r: Read<Json>)
    ensures r.Good? ==> |r.rest| < |s|
    decreases |s|, 2
  {
    ReadHere(SkipSpace(s))
  }

  /** A value with no space before it. */
  function ReadHere(t: string): (r: Read<Json>)
    ensures r.Good? ==> |r.rest| < |t|
    decreases |t|, 1
  {
    if t == "" then Bad
    else if t[0] == 'n' then ReadWord(t, "null", JNull)
    else if t[0] == 't' then ReadWord(t, "true", JBool(true))
    else if t[0] == 'f' then ReadWord(t, "false", JBool(false))
    else if t[0] == '\"' then
      match ReadString(t[1..]) { case Bad => Bad case Good(text, rest) => Good(JString(text), rest) }
    else if t[0] == '[' then ReadArray(t[1..])
    else if t[0] == '{' then ReadObject(t[1..])
    else ReadNumber(t)
  }

  function ReadArray(s: string): (r: Read<Json>)
    ensures r.Good? ==> |r.rest| < |s|
    decreases |s|, 4
  {
    var t := SkipSpace(s);
    if t != "" && t[0] == ']' then Good(JArray([]), t[1..])
    else match ReadItems(s) { case Bad => Bad case Good(items, rest) => Good(JArray(items), rest) }
  }

  function ReadItems(s: string): (r: Read<seq<Json>>)
    ensures r.Good? ==> |r.rest| < |s|
    decreases |s|, 3
  {
    match ReadValue(s)
    case Bad => Bad
    case Good(v, rest) =>
      var t := SkipSpace(rest);
      if t == "" then Bad
      else if t[0] == ']' then Good([v], t[1..])
      else if t[0] == ',' then
        match ReadItems(t[1..]) { case Bad => Bad case Good(items, rest') => Good([v] + items, rest') }
      else Bad
  }

  function ReadObject(s: string): (r: Read<Json>)
    ensures r.Good? ==> |r.rest| < |s|
    decreases |s|, 4
  {
    var t := SkipSpace(s);
    if t != "" && t[0] == '}' then Good(JObject([]), t[1..])
    else match ReadFields(s) { case Bad => Bad case Good(fields, rest) => Good(JObject(fields), rest) }
  }

  /** A quoted key and its colon. */
  function ReadKey(s: string): (r: Read<string>)
    ensures r.Good? ==> |r.rest| < |s|
  {
    var t := SkipSpace(s);
    if t == "" || t[0] != '\"' then Bad
    else
      match ReadString(t[1..])
      case Bad => Bad
      case Good(key, rest) =>
        var u := SkipSpace(rest);
        if u != "" && u[0] == ':' then Good(key, u[1..]) else Bad
  }

  function ReadFields(s: string): (r: Read<seq<Field>>)
    ensures r.Good? ==> |r.rest| < |s|
    decreases |s|, 3
  {
    match ReadKey(s)
    case Bad => Bad
    case Good(key, rest) =>
      match ReadValue(rest)
      case Bad => Bad
      case Good(v, rest') =>
        var t := SkipSpace(rest');
        if t == "" then Bad
        else if t[0] == '}' then Good([Field(key, v)], t[1..])
        else if t[0] == ',' then
          match ReadFields(t[1..]) { case Bad => Bad case Good(fields, rest'') => Good([Field(key, v)] + fields, rest'') }
        else Bad
  }

  /** The value of a whole text. */
  function Parse(s: string): Option<Json> {
    match ReadValue(s)
    case Bad => None
    case Good(v, rest) => if SkipSpace(rest) == "" then Some(v) else None
  }

  // ---- printed spaces ----

  lemma NoSkip(s: string)
    requires s == "" || !IsSpace(s[0])
    ensures SkipSpace(s) == s
  {
  }

  lemma {:induction false} SkipRepeat(n: nat, s: string)
    requires s == "" || !IsSpace(s[0])
    ensures SkipSpace(Repeat(' ', n) + s) == s
  {
    if n == 0 {
      assert Repeat(' ', 0) + s == s;
    } else {
      var t := Repeat(' ', n) + s;
      assert t[0] == ' ' && t[1..] == Repeat(' ', n - 1) + s;
      SkipRepeat(n - 1, s);
    }
  }

  lemma SkipNewLine(gap: nat, depth: nat, s: string)
    requires s == "" || !IsSpace(s[0])
    ensures SkipSpace(NewLine(gap, depth) + s) == s
  {
    if gap == 0 {
      assert NewLine(gap, depth) + s == s;
    } else {
      var t := NewLine(gap, depth) + s;
      assert t[0] == '\n' && t[1..] == Repeat(' ', gap * depth) + s;
      SkipRepeat(gap * depth, s);
    }
  }

  // ---- printed numbers ----

  /** What may follow a value in a printed text. */
  predicate Delimited(r: string) { r == "" || r[0] == ',' || r[0] == '\n' || r[0] == ']' || r[0] == '}' }

  lemma {:induction false} TokenEnds(a: string, r: string)
    requires (forall c :: c in a ==> IsNumberChar(c)) && Delimited(r)
    ensures TokenLength(a + r) == |a|
    decreases |a|
  {
    if a == "" {
      assert a + r == r;
    } else {
      assert (a + r)[1..] == a[1..] + r;
      TokenEnds(a[1..], r);
    }
  }

  lemma DigitIsDigit(n: nat)
    requires n < 10
    ensures IsDigit(Digit(n)) && DigitValue(Digit(n)) == n
  {
  }

  lemma {:induction false} DigitsShape(n: nat)
    ensures Digits(n) != "" && (forall c :: c in Digits(n) ==> IsDigit(c))
    ensures Digits(n)[0] == '0' ==> n == 0
  {
    DigitIsDigit(n % 10);
    if n >= 10 {
      DigitsShape(n / 10);
    }
  }

  lemma {:induction false} DigitsValue(n: nat)
    requires forall c :: c in Digits(n) ==> IsDigit(c)
    ensures ValueOf(Digits(n)) == n
  {
    DigitIsDigit(n % 10);
    if n < 10 {
      assert ValueOf(Digits(n)[..0]) == 0;
    } else {
      DigitsShape(n / 10);
      DigitsValue(n / 10);
      assert Digits(n)[..|Digits(n)| - 1] == Digits(n / 10);
    }
  }

  lemma {:induction false} DigitsRunOut(s: string, i: nat)
    requires i <= |s| && forall k :: i <= k < |s| ==> IsDigit(s[k])
    ensures DigitsEnd(s, i) == |s|
    decreases |s| - i
  {
    if i < |s| {
      DigitsRunOut(s, i + 1);
    }
  }

  function NumberText(v: Json): string
    requires v.JNumber? || v.JDecimal?
  {
    if v.JDecimal? then v.text else if v.n < 0 then "-" + Digits(-v.n) else Digits(v.n)
  }

  lemma NumberReads(v: Json)
    requires v.JNumber? || v.JDecimal?
    ensures IsNumeral(NumberText(v)) && NumberOf(NumberText(v)) == v
  {
    if v.JNumber? && v.n >= 0 {
      var s := Digits(v.n);
      DigitsShape(v.n);
      DigitsValue(v.n);
      assert s[0] in s && s[0..] == s;
      PlainIsNumeral(s, 0);
    } else if v.JNumber? {
      var s := "-" + Digits(-v.n);
      DigitsShape(-v.n);
      DigitsValue(-v.n);
      assert s[1..] == Digits(-v.n);
      PlainIsNumeral(s, 1);
    }
  }

  /** A sign and digits, with no needless zero in front, are a numeral without fraction and exponent. */
  lemma PlainIsNumeral(s: string, i: nat)
    requires i < |s| && i <= 1 && (if i == 0 then s[0] != '-' else s[0] == '-')
    requires (forall c :: c in s[i..] ==> IsDigit(c)) && (s[i] == '0' ==> |s| == i + 1)
    ensures IsNumeral(s) && IsPlain(s)
  {
    assert forall k :: i <= k < |s| ==> s[k] == s[i..][k - i] && s[i..][k - i] in s[i..];
    DigitsRunOut(s, i);
  }

  lemma NumberRoundTrip(v: Json, r: string)
    requires (v.JNumber? || v.JDecimal?) && Delimited(r)
    ensures ReadNumber(NumberText(v) + r) == Good(v, r)
  {
    var a := NumberText(v);
    NumberReads(v);
    NumeralChars(a);
    TokenEnds(a, r);
    assert (a + r)[..|a|] == a && (a + r)[|a|..] == r;
  }

  // ---- printed strings ----

  lemma HexDigit(n: nat)
    requires n < 16
    ensures HexValue(Digit(n)) == Some(n)
  {
  }

  lemma EscapeReads(c: char, x: string)
    requires c < ' ' && QuoteChar(c) == "\\u00" + [Digit(c as int / 16), Digit(c as int % 16)]
    ensures ReadChar(QuoteChar(c) + x) == Good(c, x)
  {
    var q := QuoteChar(c);
    HexDigit(c as int / 16);
    HexDigit(c as int % 16);
    assert (q + x)[2..6] == ['0', '0', q[4], q[5]] && (q + x)[6..] == x;
    assert HexChar(['0', '0', q[4], q[5]]) == Some(c);
  }

  lemma CharReads(c: char, x: string)
    ensures ReadChar(QuoteChar(c) + x) == Good(c, x)
    ensures QuoteChar(c)[0] != '\"'
  {
    var q := QuoteChar(c);
    if |q| == 6 {
      EscapeReads(c, x);
    } else if |q| == 2 {
      assert (q + x)[1] == q[1] && (q + x)[2..] == x;
    } else {
      assert (q + x)[1..] == x;
    }
  }

  lemma NextChar(c: char, more: string, s: string, r: string)
    requires ReadString(more) == Good(s, r)
    ensures ReadString(QuoteChar(c) + more) == Good([c] + s, r)
  {
    CharReads(c, more);
    assert (QuoteChar(c) + more)[0] == QuoteChar(c)[0];
  }

  lemma BodyHead(s: string, r: string)
    requires s != ""
    ensures QuoteBody(s) + "\"" + r == QuoteChar(s[0]) + (QuoteBody(s[1..]) + "\"" + r)
  {
    Reassociate(QuoteChar(s[0]), QuoteBody(s[1..]) + "\"", r);
  }

  lemma {:induction false} StringRoundTrip(s: string, r: string)
    ensures ReadString(QuoteBody(s) + "\"" + r) == Good(s, r)
    decreases |s|
  {
    var text := QuoteBody(s) + "\"" + r;
    if s == "" {
      assert text == "\"" + r && text[1..] == r;
    } else {
      var more := QuoteBody(s[1..]) + "\"" + r;
      BodyHead(s, r);
      StringRoundTrip(s[1..], r);
      NextChar(s[0], more, s[1..], r);
      assert [s[0]] + s[1..] == s;
    }
  }

  lemma QuoteReads(s: string, r: string)
    ensures (Quote(s) + r)[0] == '\"' && ReadString((Quote(s) + r)[1..]) == Good(s, r)
  {
    assert Quote(s) + r == "\"" + (QuoteBody(s) + "\"" + r);
    assert (Quote(s) + r)[1..] == QuoteBody(s) + "\"" + r;
    StringRoundTrip(s, r);
  }

  // ---- printed values ----

  /** The first character of a printed value tells its kind, and is no space and no closing bracket. */
  lemma FirstChar(v: Json, gap: nat, depth: nat)
    ensures Print(v, gap, depth) != ""
    ensures var c := Print(v, gap, depth)[0];
            && !IsSpace(c) && c != ']' && c != '}'
            && (v.JNumber? || v.JDecimal? ==> IsNumberChar(c))
  {
    if v.JNumber? || v.JDecimal? {
      FirstNumberChar(v);
      assert Print(v, gap, depth) == NumberText(v);
    }
  }

  lemma FirstNumberChar(v: Json)
    requires v.JNumber? || v.JDecimal?
    ensures NumberText(v) != "" && IsNumberChar(NumberText(v)[0])
  {
    NumberReads(v);
    NumeralChars(NumberText(v));
    assert NumberText(v)[0] in NumberText(v);
  }

  lemma WordReads(word: string, r: string)
    ensures After(word + r, word) == Some(r)
  {
    assert (word + r)[..|word|] == word && (word + r)[|word|..] == r;
  }

  lemma NumberHere(v: Json, r: string)
    requires (v.JNumber? || v.JDecimal?) && Delimited(r)
    ensures ReadHere(NumberText(v) + r) == Good(v, r)
  {
    FirstNumberChar(v);
    assert (NumberText(v) + r)[0] == NumberText(v)[0];
    NumberDispatch(NumberText(v) + r);
    NumberRoundTrip(v, r);
  }

  lemma StringHere(s: string, r: string)
    ensures ReadHere(Quote(s) + r) == Good(JString(s), r)
  {
    QuoteReads(s, r);
  }

  lemma NumberDispatch(t: string)
    requires t != "" && IsNumberChar(t[0])
    ensures ReadHere(t) == ReadNumber(t)
  {
    var c := t[0];
    assert c != 'n' && c != 't' && c != 'f' && c != '\"' && c != '[' && c != '{';
  }

  lemma EmptyReads(r: string)
    ensures ReadValue("[]" + r) == Good(JArray([]), r) && ReadValue("{}" + r) == Good(JObject([]), r)
  {
    var a, o := "[]" + r, "{}" + r;
    assert a[1..] == "]" + r && o[1..] == "}" + r && a[1..][1..] == r && o[1..][1..] == r;
    NoSkip(a);
    NoSkip(o);
    NoSkip("]" + r);
    NoSkip("}" + r);
    assert ReadHere(a) == ReadArray(a[1..]) && ReadHere(o) == ReadObject(o[1..]);
  }

  lemma WordHere(v: Json, r: string)
    requires v.JNull? || v.JBool?
    ensures ReadHere(Print(v, 0, 0) + r) == Good(v, r)
  {
    WordReads(Print(v, 0, 0), r);
  }

  lemma NoSpaceBefore(v: Json, gap: nat, depth: nat, r: string)
    ensures ReadValue(Print(v, gap, depth) + r) == ReadHere(Print(v, gap, depth) + r)
  {
    FirstChar(v, gap, depth);
    assert (Print(v, gap, depth) + r)[0] == Print(v, gap, depth)[0];
    NoSkip(Print(v, gap, depth) + r);
  }

  lemma ScalarRoundTrip(v: Json, gap: nat, depth: nat, r: string)
    requires IsScalar(v) && Delimited(r)
    ensures ReadValue(Print(v, gap, depth) + r) == Good(v, r)
  {
    NoSpaceBefore(v, gap, depth, r);
    if v.JString? {
      StringHere(v.s, r);
    } else if v.JNumber? || v.JDecimal? {
      NumberHere(v, r);
    } else {
      WordHere(v, r);
    }
  }

  /** Spaces before a value make no difference. */
  lemma SpaceBefore(gap: nat, depth: nat, x: string)
    requires x != "" && !IsSpace(x[0])
    ensures ReadValue(NewLine(gap, depth) + x) == ReadValue(x)
    ensures ReadKey(NewLine(gap, depth) + x) == ReadKey(x)
    ensures ReadItems(NewLine(gap, depth) + x) == ReadItems(x)
    ensures ReadFields(NewLine(gap, depth) + x) == ReadFields(x)
  {
    SkipNewLine(gap, depth, x);
    NoSkip(x);
  }

  /** What follows the last item or member of a bracket printed at this depth. */
  function Close(gap: nat, depth: nat, bracket: string, r: string): string { NewLine(gap, depth) + (bracket + r) }

  lemma CloseReads(gap: nat, depth: nat, bracket: string, r: string)
    requires bracket == "]" || bracket == "}"
    ensures Delimited(Close(gap, depth, bracket, r)) && SkipSpace(Close(gap, depth, bracket, r)) == bracket + r
    ensures (bracket + r)[1..] == r
  {
    SkipNewLine(gap, depth, bracket + r);
    assert gap > 0 ==> Close(gap, depth, bracket, r)[0] == '\n';
    assert gap == 0 ==> Close(gap, depth, bracket, r) == bracket + r;
  }

  lemma Chain(a: string, b: string, c: string, d: string, e: string)
    ensures a + b + c + d + e == a + (b + (c + (d + e)))
  {
  }

  lemma {:induction false} ItemsRoundTrip(items: seq<Json>, gap: nat, depth: nat, outer: nat, r: string)
    requires items != []
    ensures ReadItems(PrintItems(items, gap, depth) + Close(gap, outer, "]", r)) == Good(items, r)
    decreases items, 0
  {
    var close := Close(gap, outer, "]", r);
    CloseReads(gap, outer, "]", r);
    if |items| == 1 {
      ValueRoundTrip(items[0], gap, depth, close);
      OneItem(items, gap, depth, close, r);
    } else {
      var tail := PrintItems(items[1..], gap, depth) + close;
      ValueRoundTrip(items[0], gap, depth, "," + (NewLine(gap, depth) + tail));
      ItemsRoundTrip(items[1..], gap, depth, outer, r);
      ItemsStart(items[1..], gap, depth);
      NextItem(Print(items[0], gap, depth), items[0], gap, depth, tail, items[1..], r);
      ItemsSplit(items, gap, depth, close);
    }
  }

  lemma ItemsSplit(items: seq<Json>, gap: nat, depth: nat, close: string)
    requires |items| > 1
    ensures PrintItems(items, gap, depth) + close ==
            Print(items[0], gap, depth) + ("," + (NewLine(gap, depth) + (PrintItems(items[1..], gap, depth) + close)))
    ensures [items[0]] + items[1..] == items
  {
    Chain(Print(items[0], gap, depth), ",", NewLine(gap, depth), PrintItems(items[1..], gap, depth), close);
  }

  lemma OneItem(items: seq<Json>, gap: nat, depth: nat, close: string, r: string)
    requires |items| == 1 && SkipSpace(close) == "]" + r
    requires ReadValue(Print(items[0], gap, depth) + close) == Good(items[0], close)
    ensures ReadItems(PrintItems(items, gap, depth) + close) == Good(items, r)
  {
    LastItem(Print(items[0], gap, depth) + close, items[0], close, r);
    assert [items[0]] == items;
  }

  /** A value, a comma, perhaps a line break, and the text of the other items. */
  lemma NextItem(head: string, v: Json, gap: nat, depth: nat, tail: string, items: seq<Json>, r: string)
    requires tail != "" && !IsSpace(tail[0]) && ReadItems(tail) == Good(items, r)
    requires ReadValue(head + ("," + (NewLine(gap, depth) + tail))) == Good(v, "," + (NewLine(gap, depth) + tail))
    ensures ReadItems(head + ("," + (NewLine(gap, depth) + tail))) == Good([v] + items, r)
  {
    var more := NewLine(gap, depth) + tail;
    SpaceBefore(gap, depth, tail);
    NoSkip("," + more);
    MoreItems(head + ("," + more), v, "," + more, more, items, r);
  }

  lemma ItemsStart(items: seq<Json>, gap: nat, depth: nat)
    requires items != []
    ensures PrintItems(items, gap, depth) != ""
    ensures var c := PrintItems(items, gap, depth)[0]; !IsSpace(c) && c != ']'
  {
    FirstChar(items[0], gap, depth);
  }

  lemma LastItem(s: string, v: Json, rest: string, r: string)
    requires ReadValue(s) == Good(v, rest) && SkipSpace(rest) == "]" + r
    ensures ReadItems(s) == Good([v], r)
  {
    assert ("]" + r)[1..] == r;
  }

  lemma MoreItems(s: string, v: Json, rest: string, more: string, items: seq<Json>, r: string)
    requires ReadValue(s) == Good(v, rest) && SkipSpace(rest) == "," + more && ReadItems(more) == Good(items, r)
    ensures ReadItems(s) == Good([v] + items, r)
  {
    assert ("," + more)[1..] == more;
  }

  function Colon(gap: nat): string { if gap == 0 then ":" else ": " }

  lemma KeyRoundTrip(key: string, gap: nat, x: string)
    requires x != "" && !IsSpace(x[0])
    ensures ReadKey(Quote(key) + (Colon(gap) + x)) == Good(key, (Colon(gap) + x)[1..])
    ensures ReadValue((Colon(gap) + x)[1..]) == ReadValue(x)
  {
    var rest := Colon(gap) + x;
    assert rest[0] == ':';
    KeyReads(key, rest);
    if gap == 0 {
      assert rest[1..] == x;
    } else {
      assert rest[1..] == " " + x && (" " + x)[1..] == x;
      NoSkip(x);
    }
  }

  lemma KeyReads(key: string, rest: string)
    requires rest != "" && rest[0] == ':'
    ensures ReadKey(Quote(key) + rest) == Good(key, rest[1..])
  {
    QuoteReads(key, rest);
    NoSkip(Quote(key) + rest);
    NoSkip(rest);
  }

  function FieldText(field: Field, gap: nat, depth: nat): string {
    Quote(field.key) + Colon(gap) + Print(field.value, gap, depth)
  }

  lemma FieldsStart(fields: seq<Field>, gap: nat, depth: nat)
    requires fields != []
    ensures PrintFields(fields, gap, depth) != "" && PrintFields(fields, gap, depth)[0] == '\"'
    ensures PrintFields(fields, gap, depth) ==
            if |fields| == 1 then FieldText(fields[0], gap, depth)
            else FieldText(fields[0], gap, depth) + "," + NewLine(gap, depth) + PrintFields(fields[1..], gap, depth)
  {
  }

  /** A member is read, and what follows it is left. */
  lemma {:induction false} FieldRoundTrip(field: Field, gap: nat, depth: nat, r: string)
    requires Delimited(r)
    ensures HasField(FieldText(field, gap, depth) + r, field, r)
    decreases field, 0
  {
    var x := Print(field.value, gap, depth) + r;
    FirstChar(field.value, gap, depth);
    assert x[0] == Print(field.value, gap, depth)[0];
    KeyRoundTrip(field.key, gap, x);
    ValueRoundTrip(field.value, gap, depth, r);
    Regroup(Quote(field.key), Colon(gap), Print(field.value, gap, depth), r);
  }

  lemma Regroup(a: string, b: string, c: string, d: string)
    ensures a + b + c + d == a + (b + (c + d))
  {
  }

  /** The text starts with this member. */
  predicate HasField(s: string, field: Field, rest: string) {
    var key := ReadKey(s);
    key.Good? && key.value == field.key && ReadValue(key.rest) == Good(field.value, rest)
  }

  lemma LastField(s: string, field: Field, rest: string, r: string)
    requires HasField(s, field, rest) && SkipSpace(rest) == "}" + r
    ensures ReadFields(s) == Good([field], r)
  {
    assert ("}" + r)[1..] == r;
  }

  lemma MoreFields(s: string, field: Field, rest: string, more: string, fields: seq<Field>, r: string)
    requires HasField(s, field, rest) && SkipSpace(rest) == "," + more && ReadFields(more) == Good(fields, r)
    ensures ReadFields(s) == Good([field] + fields, r)
  {
    assert ("," + more)[1..] == more;
  }

  lemma FieldsSplit(fields: seq<Field>, gap: nat, depth: nat, close: string)
    requires |fields| > 1
    ensures PrintFields(fields, gap, depth) + close ==
            FieldText(fields[0], gap, depth) + ("," + (NewLine(gap, depth) + (PrintFields(fields[1..], gap, depth) + close)))
    ensures [fields[0]] + fields[1..] == fields
  {
    FieldsStart(fields, gap, depth);
    Chain(FieldText(fields[0], gap, depth), ",", NewLine(gap, depth), PrintFields(fields[1..], gap, depth), close);
  }

  lemma {:induction false} FieldsRoundTrip(fields: seq<Field>, gap: nat, depth: nat, outer: nat, r: string)
    requires fields != []
    ensures ReadFields(PrintFields(fields, gap, depth) + Close(gap, outer, "}", r)) == Good(fields, r)
    decreases fields, 0
  {
    var close := Close(gap, outer, "}", r);
    CloseReads(gap, outer, "}", r);
    if |fields| == 1 {
      FieldRoundTrip(fields[0], gap, depth, close);
      OneField(fields, gap, depth, close, r);
    } else {
      var tail := PrintFields(fields[1..], gap, depth) + close;
      FieldRoundTrip(fields[0], gap, depth, "," + (NewLine(gap, depth) + tail));
      FieldsRoundTrip(fields[1..], gap, depth, outer, r);
      TailStart(fields[1..], gap, depth, close);
      NextField(FieldText(fields[0], gap, depth), fields[0], gap, depth, tail, fields[1..], r);
      FieldsSplit(fields, gap, depth, close);
    }
  }

  lemma TailStart(fields: seq<Field>, gap: nat, depth: nat, close: string)
    requires fields != []
    ensures PrintFields(fields, gap, depth) + close != "" && (PrintFields(fields, gap, depth) + close)[0] == '\"'
  {
    FieldsStart(fields, gap, depth);
  }

  lemma OneField(fields: seq<Field>, gap: nat, depth: nat, close: string, r: string)
    requires |fields| == 1 && SkipSpace(close) == "}" + r
    requires HasField(FieldText(fields[0], gap, depth) + close, fields[0], close)
    ensures ReadFields(PrintFields(fields, gap, depth) + close) == Good(fields, r)
  {
    FieldsStart(fields, gap, depth);
    LastField(FieldText(fields[0], gap, depth) + close, fields[0], close, r);
    assert [fields[0]] == fields;
  }

  /** A member, a comma, perhaps a line break, and the text of the other members. */
  lemma NextField(head: string, field: Field, gap: nat, depth: nat, tail: string, fields: seq<Field>, r: string)
    requires tail != "" && !IsSpace(tail[0]) && ReadFields(tail) == Good(fields, r)
    requires HasField(head + ("," + (NewLine(gap, depth) + tail)), field, "," + (NewLine(gap, depth) + tail))
    ensures ReadFields(head + ("," + (NewLine(gap, depth) + tail))) == Good([field] + fields, r)
  {
    var more := NewLine(gap, depth) + tail;
    SpaceBefore(gap, depth, tail);
    NoSkip("," + more);
    MoreFields(head + ("," + more), field, "," + more, more, fields, r);
  }

  /** The text after an opening bracket, with everything that follows. */
  lemma BracketSplit(open: string, inner: string, close: string, gap: nat, depth: nat, r: string)
    ensures open + NewLine(gap, depth + 1) + inner + NewLine(gap, depth) + close + r ==
            open + (NewLine(gap, depth + 1) + (inner + Close(gap, depth, close, r)))
  {
  }

  lemma ArrayReads(s: string, items: seq<Json>, r: string)
    requires ReadItems(s) == Good(items, r) && SkipSpace(s) != "" && SkipSpace(s)[0] != ']'
    ensures ReadValue("[" + s) == Good(JArray(items), r)
  {
    assert ("[" + s)[1..] == s;
    NoSkip("[" + s);
    assert ReadHere("[" + s) == ReadArray(s);
  }

  lemma {:induction false} ArrayRoundTrip(items: seq<Json>, gap: nat, depth: nat, r: string)
    ensures ReadValue(Print(JArray(items), gap, depth) + r) == Good(JArray(items), r)
    decreases items, 1
  {
    if items == [] {
      EmptyReads(r);
    } else {
      var inner := PrintItems(items, gap, depth + 1) + Close(gap, depth, "]", r);
      BracketSplit("[", PrintItems(items, gap, depth + 1), "]", gap, depth, r);
      ItemsStart(items, gap, depth + 1);
      SkipNewLine(gap, depth + 1, inner);
      SpaceBefore(gap, depth + 1, inner);
      ItemsRoundTrip(items, gap, depth + 1, depth, r);
      ArrayReads(NewLine(gap, depth + 1) + inner, items, r);
    }
  }

  lemma ObjectReads(s: string, fields: seq<Field>, r: string)
    requires ReadFields(s) == Good(fields, r) && SkipSpace(s) != "" && SkipSpace(s)[0] != '}'
    ensures ReadValue("{" + s) == Good(JObject(fields), r)
  {
    assert ("{" + s)[1..] == s;
    NoSkip("{" + s);
    BraceHere(s);
  }

  lemma BraceHere(s: string)
    ensures ReadHere("{" + s) == ReadObject(s)
  {
    var t := "{" + s;
    assert t[0] == '{' && t[1..] == s;
  }

  lemma {:induction false} ObjectRoundTrip(fields: seq<Field>, gap: nat, depth: nat, r: string)
    ensures ReadValue(Print(JObject(fields), gap, depth) + r) == Good(JObject(fields), r)
    decreases fields, 1
  {
    if fields == [] {
      EmptyReads(r);
    } else {
      var inner := PrintFields(fields, gap, depth + 1) + Close(gap, depth, "}", r);
      FieldsRoundTrip(fields, gap, depth + 1, depth, r);
      FieldsStart(fields, gap, depth + 1);
      ObjectAround(inner, fields, gap, depth, r);
      BracketSplit("{", PrintFields(fields, gap, depth + 1), "}", gap, depth, r);
    }
  }

  lemma ObjectAround(inner: string, fields: seq<Field>, gap: nat, depth: nat, r: string)
    requires inner != "" && inner[0] == '\"' && ReadFields(inner) == Good(fields, r)
    ensures ReadValue("{" + (NewLine(gap, depth + 1) + inner)) == Good(JObject(fields), r)
  {
    SkipNewLine(gap, depth + 1, inner);
    SpaceBefore(gap, depth + 1, inner);
    ObjectReads(NewLine(gap, depth + 1) + inner, fields, r);
  }

  /** The reader takes exactly the printed value off the front of a text, at every indentation. */
  lemma {:induction false} ValueRoundTrip(v: Json, gap: nat, depth: nat, r: string)
    requires Delimited(r)
    ensures ReadValue(Print(v, gap, depth) + r) == Good(v, r)
    decreases v, 1
  {
    match v
    case JArray(items) => ArrayRoundTrip(items, gap, depth, r);
    case JObject(fields) => ObjectRoundTrip(fields, gap, depth, r);
    case _ => ScalarRoundTrip(v, gap, depth, r);
  }

  /** Round trip: reading what `JSON.stringify` printed gives back the value, at every indentation. */
  lemma ParseInverts(v: Json, gap: nat)
    ensures Parse(Print(v, gap, 0)) == Some(v)
  {
    ValueRoundTrip(v, gap, 0, "");
    assert Print(v, gap, 0) + "" == Print(v, gap, 0);
  }

  /** So `JSON.stringify` gives different values different texts. */
  lemma PrintInjective(v: Json, w: Json, gap: nat)
    requires Print(v, gap, 0) == Print(w, gap, 0)
    ensures v == w
  {
    ParseInverts(v, gap);
    ParseInverts(w, gap);
  }
}
