/** The line-by-line event stream interpreter of the WHATWG HTML Living Standard (sections 9.2.5 and
    9.2.6), restricted to the data buffer: the recorder ignores event types, ids and retry times. */
module EventStreamStandard {
  import opened Prelude

  const BOM := '\U{FEFF}'

  predicate IsLineEnd(c: char) { c == '\n' || c == '\r' }

  function LineLength(s: string): (n: nat)
    ensures n <= |s|
    ensures forall i :: 0 <= i < n ==> !IsLineEnd(s[i])
    ensures n < |s| ==> IsLineEnd(s[n])
  {
    if s == "" || IsLineEnd(s[0]) then 0 else 1 + LineLength(s[1..])
  }

  /** A line ends at CRLF, at LF or at CR. */
  function EndLength(s: string, n: nat): nat
    requires n < |s|
  {
    if s[n] == '\r' && n + 1 < |s| && s[n + 1] == '\n' then 2 else 1
  }

  /** The lines of a stream that have their line end. Text after the last one is no line yet. */
  function Lines(s: string): seq<string>
    decreases |s|
  {
    var n := LineLength(s);
    if n == |s| then [] else [s[..n]] + Lines(s[n + EndLength(s, n)..])
  }

  /** Where the first colon is, or where it would be. */
  function ColonAt(line: string): (n: nat)
    ensures n <= |line| && (n < |line| ==> line[n] == ':')
    ensures forall k :: 0 <= k < n ==> line[k] != ':'
  {
    if line == "" || line[0] == ':' then 0 else 1 + ColonAt(line[1..])
  }

  function DropOneSpace(v: string): string {
    if v != "" && v[0] == ' ' then v[1..] else v
  }

  /** The value a line adds to the data buffer, if it is a `data` field. */
  function DataField(line: string): Option<string> {
    var n := ColonAt(line);
    if n == 0 then None
    else if line[..n] != "data" then None
    else if n == |line| then Some("")
    else Some(DropOneSpace(line[n + 1..]))
  }

  /** Dispatch: nothing for an empty data buffer, else the buffer without its last line feed. */
  function Dispatch(data: string): seq<string> {
    if data == "" then [] else [data[..|data| - 1]]
  }

  function Interpret(lines: seq<string>, data: string): seq<string> {
    if lines == [] then []
    else if lines[0] == "" then Dispatch(data) + Interpret(lines[1..], "")
    else
      match DataField(lines[0])
      case None => Interpret(lines[1..], data)
      case Some(v) => Interpret(lines[1..], data + v + "\n")
  }

  function DropBom(s: string): string {
    if s != "" && s[0] == BOM then s[1..] else s
  }

  /** The data of every event a conforming reader dispatches for the stream. */
  function Events(s: string): seq<string> { Interpret(Lines(DropBom(s)), "") }
}

/** How far the recorder's reader agrees with the standard. */
module SseRefinement {
  import opened Prelude
  import opened Text
  import Standard = EventStreamStandard
  import Reader = SseReader

  // ---- one line ----

  /** The recorder reads this line as the standard does: it is not a bare `data` field, and its data
      value has no whitespace after the one optional space. */
  predicate WellSpaced(line: string) {
    && line != "data"
    && (StartsWith(line, Reader.DATA) ==>
          var v := Standard.DropOneSpace(line[|Reader.DATA|..]); v == "" || !IsWhitespace(v[0]))
  }

  lemma ColonAtData(line: string)
    ensures StartsWith(line, Reader.DATA) <==> Standard.ColonAt(line) == 4 < |line| && line[..4] == "data"
    ensures line == "data" <==> Standard.ColonAt(line) == 4 == |line| && line[..4] == "data"
  {
    if |line| >= 4 && line[..4] == "data" {
      NoColonInData(line);
    }
    if |line| >= 5 {
      assert line[..5] == line[..4] + [line[4]] && Reader.DATA == "data" + ":";
    }
  }

  lemma NoColonInData(line: string)
    requires |line| >= 4 && line[..4] == "data"
    ensures Standard.ColonAt(line) >= 4
  {
    assert line[..4][0] == line[0] && line[..4][1] == line[1] && line[..4][2] == line[2] && line[..4][3] == line[3];
  }

  lemma LineAgreement(line: string)
    requires '\n' !in line
    ensures Reader.DataValue(line).Some? ==> Standard.DataField(line).Some?
    ensures Reader.DataValue(line) == Standard.DataField(line) <==> WellSpaced(line)
    ensures Standard.DataField(line).Some? ==> '\n' !in Standard.DataField(line).value
    ensures Reader.DataValue(line).Some? ==> '\n' !in Reader.DataValue(line).value
  {
    ColonAtData(line);
    if StartsWith(line, Reader.DATA) {
      var v := line[5..];
      assert '\n' !in v;
      assert line[4 + 1..] == v;
      TrimVersusSpace(v);
    }
  }

  lemma TrimVersusSpace(v: string)
    requires '\n' !in v
    ensures '\n' !in TrimStart(v) && '\n' !in Standard.DropOneSpace(v)
    ensures TrimStart(v) == Standard.DropOneSpace(v) <==>
            Standard.DropOneSpace(v) == "" || !IsWhitespace(Standard.DropOneSpace(v)[0])
  {
    TrimStartSuffix(v);
  }

  lemma {:induction false} TrimStartSuffix(v: string)
    ensures |TrimStart(v)| <= |v| && TrimStart(v) == v[|v| - |TrimStart(v)|..]
    ensures v != "" && IsWhitespace(v[0]) ==> |TrimStart(v)| < |v|
  {
    if v != "" && IsWhitespace(v[0]) {
      TrimStartSuffix(v[1..]);
    }
  }

  // ---- the lines of one event ----

  function FieldsOf(lines: seq<string>): seq<string> {
    if lines == [] then []
    else Reader.ToSeq(Standard.DataField(lines[0])) + FieldsOf(lines[1..])
  }

  ghost predicate NoFeeds(lines: seq<string>) {
    forall l :: l in lines ==> '\n' !in l
  }

  /** The two readers collect the same values from an event's lines exactly when every line is well spaced. */
  lemma {:induction false} ValuesAgreement(lines: seq<string>)
    requires NoFeeds(lines)
    ensures |Reader.DataValues(lines)| <= |FieldsOf(lines)|
    ensures Reader.DataValues(lines) == FieldsOf(lines) <==> forall l :: l in lines ==> WellSpaced(l)
    ensures NoFeeds(Reader.DataValues(lines)) && NoFeeds(FieldsOf(lines))
  {
    if lines != [] {
      LineAgreement(lines[0]);
      ValuesAgreement(lines[1..]);
      var mine, theirs := Reader.DataValues(lines), FieldsOf(lines);
      assert mine == Reader.ToSeq(Reader.DataValue(lines[0])) + Reader.DataValues(lines[1..]);
      assert forall l :: l in lines <==> l == lines[0] || l in lines[1..];
      if Reader.DataValue(lines[0]).Some? {
        assert mine[1..] == Reader.DataValues(lines[1..]) && theirs[1..] == FieldsOf(lines[1..]);
        assert mine == theirs <==> mine[0] == theirs[0] && mine[1..] == theirs[1..];
      } else if Standard.DataField(lines[0]).Some? {
        assert |mine| < |theirs|;
      }
    }
  }

  /** Lists of line-feed-free texts are determined by their join. */
  lemma {:induction false} JoinInjective(a: seq<string>, b: seq<string>)
    requires NoFeeds(a) && NoFeeds(b) && a != [] && b != []
    requires Join(a, "\n") == Join(b, "\n")
    ensures a == b
  {
    JoinHead(a);
    JoinHead(b);
    if |a| > 1 && |b| > 1 {
      SameFirstPart(a[0], Join(a[1..], "\n"), b[0], Join(b[1..], "\n"));
      JoinInjective(a[1..], b[1..]);
      assert a == [a[0]] + a[1..] && b == [b[0]] + b[1..];
    }
  }

  lemma SameFirstPart(a: string, ra: string, b: string, rb: string)
    requires '\n' !in a && '\n' !in b && a + "\n" + ra == b + "\n" + rb
    ensures a == b && ra == rb
  {
    var j := a + "\n" + ra;
    assert j[|a|] == '\n' && j[|b|] == '\n';
    assert forall k :: 0 <= k < |a| ==> j[k] == a[k];
    assert forall k :: 0 <= k < |b| ==> j[k] == b[k];
    assert a == j[..|a|] && b == j[..|b|];
    assert ra == j[|a| + 1..] && rb == j[|b| + 1..];
  }

  lemma JoinHead(a: seq<string>)
    requires a != []
    ensures |a| == 1 ==> Join(a, "\n") == a[0]
    ensures |a| > 1 ==> Join(a, "\n") == a[0] + "\n" + Join(a[1..], "\n")
    ensures |a| > 1 ==> '\n' in Join(a, "\n")
  {
    if |a| > 1 {
      assert Join(a, "\n")[|a[0]|] == '\n';
    }
  }

  /** So the two readers give an event the same text exactly when they collect the same values. */
  lemma TextAgreement(a: seq<string>, b: seq<string>)
    requires NoFeeds(a) && NoFeeds(b)
    ensures Reader.JoinData(a) == Reader.JoinData(b) <==> a == b
  {
    if a != [] && b != [] && Join(a, "\n") == Join(b, "\n") {
      JoinInjective(a, b);
    }
  }

  // ---- the standard's interpreter, event by event ----

  function Ended(values: seq<string>): string {
    if values == [] then "" else values[0] + "\n" + Ended(values[1..])
  }

  lemma {:induction false} EndedIsJoin(values: seq<string>)
    requires values != []
    ensures Ended(values) == Join(values, "\n") + "\n"
  {
    if |values| > 1 {
      EndedIsJoin(values[1..]);
    }
  }

  lemma DispatchEnded(values: seq<string>)
    ensures Standard.Dispatch(Ended(values)) == Reader.ToSeq(Reader.JoinData(values))
  {
    if values != [] {
      EndedIsJoin(values);
    }
  }

  lemma EndedFirst(lines: seq<string>, data: string)
    requires lines != []
    ensures var field := Standard.DataField(lines[0]);
            data + Ended(FieldsOf(lines)) ==
            (if field.None? then data else data + field.value + "\n") + Ended(FieldsOf(lines[1..]))
  {
    var rest := FieldsOf(lines[1..]);
    match Standard.DataField(lines[0])
    case None => assert FieldsOf(lines) == [] + rest == rest;
    case Some(v) =>
      assert FieldsOf(lines) == [v] + rest && ([v] + rest)[1..] == rest;
      Reassociate(data, v + "\n", Ended(rest));
      Reassociate(data, v, "\n");
  }

  /** Up to the blank line that closes it, an event's lines only fill the data buffer. */
  lemma {:induction false} InterpretEvent(lines: seq<string>, rest: seq<string>, data: string)
    requires "" !in lines
    ensures Standard.Interpret(lines + [""] + rest, data) ==
            Standard.Dispatch(data + Ended(FieldsOf(lines))) + Standard.Interpret(rest, "")
  {
    var all := lines + [""] + rest;
    if lines == [] {
      assert all[1..] == rest;
      assert data + "" == data;
    } else {
      assert all[1..] == lines[1..] + [""] + rest;
      EndedFirst(lines, data);
      match Standard.DataField(lines[0])
      case None => InterpretEvent(lines[1..], rest, data);
      case Some(v) => InterpretEvent(lines[1..], rest, data + v + "\n");
    }
  }

  lemma {:induction false} InterpretUnclosed(lines: seq<string>, data: string)
    requires "" !in lines
    ensures Standard.Interpret(lines, data) == []
  {
    if lines != [] {
      match Standard.DataField(lines[0])
      case None => InterpretUnclosed(lines[1..], data);
      case Some(v) => InterpretUnclosed(lines[1..], data + v + "\n");
    }
  }

  // ---- from text to lines ----

  lemma {:induction false} LineLengthIs(s: string, n: nat)
    requires n < |s| && Standard.IsLineEnd(s[n])
    requires forall i :: 0 <= i < n ==> !Standard.IsLineEnd(s[i])
    ensures Standard.LineLength(s) == n
  {
    if n > 0 {
      LineLengthIs(s[1..], n - 1);
    }
  }

  lemma FirstLine(line: string, rest: string)
    requires '\r' !in line && '\n' !in line && '\r' !in rest
    ensures Standard.Lines(line + "\n" + rest) == [line] + Standard.Lines(rest)
  {
    var s := line + "\n" + rest;
    LineLengthIs(s, |line|);
    assert s[..|line|] == line && s[|line| + 1..] == rest;
  }

  lemma FirstSplit(raw: string)
    requires '\r' !in raw
    ensures Reader.IndexOf(raw, '\n').None? ==> Reader.SplitLines(raw) == [raw]
    ensures Reader.IndexOf(raw, '\n').Some? ==> var i := Reader.IndexOf(raw, '\n').value;
              Reader.SplitLines(raw) == [raw[..i]] + Reader.SplitLines(raw[i + 1..])
  {
  }

  /** Without carriage returns, the lines of a closed text are the recorder's lines of it. */
  lemma {:induction false} LinesOfText(raw: string, rest: string)
    requires '\r' !in raw && '\r' !in rest
    ensures Standard.Lines(raw + "\n" + rest) == Reader.SplitLines(raw) + Standard.Lines(rest)
    decreases |raw|
  {
    FirstSplit(raw);
    match Reader.IndexOf(raw, '\n')
    case None => FirstLine(raw, rest);
    case Some(i) =>
      var tail := raw[i + 1..];
      CutAtLine(raw, i, rest);
      FirstLine(raw[..i], tail + "\n" + rest);
      LinesOfText(tail, rest);
      Reassociate([raw[..i]], Reader.SplitLines(tail), Standard.Lines(rest));
  }

  lemma CutAtLine(raw: string, i: nat, rest: string)
    requires i < |raw| && raw[i] == '\n'
    ensures raw + "\n" + rest == raw[..i] + "\n" + (raw[i + 1..] + "\n" + rest)
  {
    assert raw == raw[..i] + "\n" + raw[i + 1..];
  }

  lemma LinesOfEvent(s: string, i: nat)
    requires '\r' !in s && FirstBlank(s) == Some(i)
    ensures Standard.Lines(s) == Reader.SplitLines(s[..i]) + [""] + Standard.Lines(s[i + 2..])
  {
    var tail := s[i + 1..];
    assert s == s[..i] + "\n" + tail && tail == "" + "\n" + s[i + 2..];
    LinesOfText(s[..i], tail);
    FirstLine("", s[i + 2..]);
    Reassociate(Reader.SplitLines(s[..i]), [""], Standard.Lines(s[i + 2..]));
  }

  /** Only the first line of an event can be empty: a blank line would have ended it. */
  lemma {:induction false} OnlyFirstEmpty(raw: string)
    requires '\r' !in raw && (forall k: nat :: !BlankAt(raw, k))
    requires raw != "" ==> raw[|raw| - 1] != '\n'
    ensures NoFeeds(Reader.SplitLines(raw))
    ensures "" !in Reader.SplitLines(raw)[1..]
    ensures Reader.SplitLines(raw)[0] == "" ==> raw == "" || raw[0] == '\n'
    decreases |raw|
  {
    match Reader.IndexOf(raw, '\n')
    case None =>
    case Some(i) =>
      var tail := raw[i + 1..];
      assert forall k: nat :: BlankAt(tail, k) ==> BlankAt(raw, i + 1 + k);
      assert !BlankAt(raw, i);
      OnlyFirstEmpty(tail);
      assert Reader.SplitLines(raw)[1..] == Reader.SplitLines(tail);
      assert Reader.DropLastCr(raw[..i]) == raw[..i];
  }

  /** The standard dispatches, for one closed event, exactly the join of its data fields. */
  lemma InterpretClosed(s: string, i: nat)
    requires '\r' !in s && FirstBlank(s) == Some(i)
    ensures NoFeeds(Reader.SplitLines(s[..i]))
    ensures Standard.Interpret(Standard.Lines(s), "") ==
            Reader.ToSeq(Reader.JoinData(FieldsOf(Reader.SplitLines(s[..i])))) +
            Standard.Interpret(Standard.Lines(s[i + 2..]), "")
  {
    var raw := s[..i];
    assert forall k: nat :: BlankAt(raw, k) ==> BlankAt(s, k) && k < i;
    assert i > 0 && s[i - 1] == '\n' ==> BlankAt(s, i - 1);
    OnlyFirstEmpty(raw);
    LinesOfEvent(s, i);
    InterpretLines(Reader.SplitLines(raw), Standard.Lines(s[i + 2..]));
  }

  lemma InterpretBlank(lines: seq<string>)
    ensures Standard.Interpret([""] + lines, "") == Standard.Interpret(lines, "")
  {
    assert ([""] + lines)[1..] == lines;
  }

  lemma InterpretLines(lines: seq<string>, rest: seq<string>)
    requires lines != [] && "" !in lines[1..]
    ensures Standard.Interpret(lines + [""] + rest, "") ==
            Reader.ToSeq(Reader.JoinData(FieldsOf(lines))) + Standard.Interpret(rest, "")
  {
    DispatchEnded(FieldsOf(lines));
    assert "" + Ended(FieldsOf(lines)) == Ended(FieldsOf(lines));
    var tail := lines[1..];
    if lines[0] == "" {
      assert lines + [""] + rest == [""] + (tail + [""] + rest);
      assert FieldsOf(lines) == [] + FieldsOf(tail) == FieldsOf(tail);
      InterpretEvent(tail, rest, "");
      InterpretBlank(tail + [""] + rest);
    } else {
      assert lines == [lines[0]] + tail;
      InterpretEvent(lines, rest, "");
    }
  }

  lemma {:induction false} NoEmptyLine(s: string)
    requires '\r' !in s && (forall k: nat :: !BlankAt(s, k))
    requires s != "" ==> s[0] != '\n'
    ensures "" !in Standard.Lines(s)
    decreases |s|
  {
    var n := Standard.LineLength(s);
    if n < |s| {
      var tail := s[n + 1..];
      assert forall k: nat :: BlankAt(tail, k) ==> BlankAt(s, n + 1 + k);
      assert !BlankAt(s, n);
      NoEmptyLine(tail);
    }
  }

  /** An event without its closing blank line is dropped by the standard too. */
  lemma InterpretOpen(s: string)
    requires '\r' !in s && FirstBlank(s) == None
    ensures Standard.Interpret(Standard.Lines(s), "") == []
  {
    if s != "" && s[0] == '\n' {
      FirstLine("", s[1..]);
      assert s == "" + "\n" + s[1..];
      assert forall k: nat :: BlankAt(s[1..], k) ==> BlankAt(s, 1 + k);
      assert !BlankAt(s, 0);
      NoEmptyLine(s[1..]);
      InterpretUnclosed(Standard.Lines(s[1..]), "");
      assert Standard.Lines(s)[1..] == Standard.Lines(s[1..]);
    } else {
      NoEmptyLine(s);
      InterpretUnclosed(Standard.Lines(s), "");
    }
  }

  // ---- whole streams ----

  /** The lines of all events that are closed by a blank line. */
  function ClosedLines(s: string): seq<string>
    decreases |s|
  {
    match FirstBlank(s)
    case None => []
    case Some(i) => Reader.SplitLines(s[..i]) + ClosedLines(s[i + 2..])
  }

  lemma {:induction false} StreamAgreement(s: string)
    requires '\r' !in s
    ensures |Reader.Texts(s)| <= |Standard.Interpret(Standard.Lines(s), "")|
    ensures Reader.Texts(s) == Standard.Interpret(Standard.Lines(s), "") <==>
            forall l :: l in ClosedLines(s) ==> WellSpaced(l)
    decreases |s|
  {
    match FirstBlank(s)
    case None => InterpretOpen(s);
    case Some(i) =>
      var lines := Reader.SplitLines(s[..i]);
      InterpretClosed(s, i);
      StreamAgreement(s[i + 2..]);
      ValuesAgreement(lines);
      TextAgreement(Reader.DataValues(lines), FieldsOf(lines));
      var mine, theirs := Reader.ToSeq(Reader.DataText(s[..i])), Reader.ToSeq(Reader.JoinData(FieldsOf(lines)));
      AlignedConcat(mine, Reader.Texts(s[i + 2..]), theirs, Standard.Interpret(Standard.Lines(s[i + 2..]), ""));
      assert forall l :: l in ClosedLines(s) <==> l in lines || l in ClosedLines(s[i + 2..]);
  }

  lemma AlignedConcat<T>(a: seq<T>, ra: seq<T>, b: seq<T>, rb: seq<T>)
    requires |a| <= |b| && |ra| <= |rb|
    ensures a + ra == b + rb <==> a == b && ra == rb
  {
    if a + ra == b + rb {
      assert |a + ra| == |b + rb|;
      assert a == (a + ra)[..|a|] && b == (b + rb)[..|b|];
      assert ra == (a + ra)[|a|..] && rb == (b + rb)[|b|..];
    }
  }

  /** On every stream that uses LF only and has no byte order mark, the recorder's reader delivers
      the events of the standard if and only if every line of every closed event is well spaced. */
  lemma AgreesWithStandard(s: string)
    requires '\r' !in s && (s != "" ==> s[0] != Standard.BOM)
    ensures Reader.Texts(s) == Standard.Events(s) <==> forall l :: l in ClosedLines(s) ==> WellSpaced(l)
  {
    StreamAgreement(s);
  }

  /** A line that ends in CRLF is a line of the standard. */
  lemma CrlfLine(line: string, rest: string)
    requires '\r' !in line && '\n' !in line
    ensures Standard.Lines(line + "\r\n" + rest) == [line] + Standard.Lines(rest)
  {
    var s := line + "\r\n" + rest;
    LineLengthIs(s, |line|);
    assert s[..|line|] == line && s[|line| + 2..] == rest;
  }

  /** LF only is needed: a conforming reader takes CRLF CRLF as the blank line that ends an event, the
      recorder never does, whatever the event's line. */
  lemma CrlfStreamsDiffer(line: string)
    requires line != "" && line[0] != Standard.BOM && '\r' !in line && '\n' !in line
    ensures Standard.Events(line + "\r\n\r\n") == Reader.ToSeq(Standard.DataField(line))
    ensures Reader.Texts(line + "\r\n\r\n") == []
  {
    var s := line + "\r\n\r\n";
    assert s == line + "\r\n" + "\r\n" && "\r\n" == "" + "\r\n" + "";
    CrlfLine(line, "\r\n");
    CrlfLine("", "");
    assert [line] + ([""] + []) == [line] + [""] + [];
    InterpretLines([line], []);
    OneField(line);
    NoBlankInCrlf(line);
  }

  lemma OneField(line: string)
    ensures Reader.ToSeq(Reader.JoinData(FieldsOf([line]))) == Reader.ToSeq(Standard.DataField(line))
  {
    assert FieldsOf([line]) == Reader.ToSeq(Standard.DataField(line)) + FieldsOf([]);
  }

  lemma NoBlankInCrlf(line: string)
    requires '\n' !in line
    ensures Reader.Texts(line + "\r\n\r\n") == []
  {
    var s := line + "\r\n\r\n";
    assert forall k: nat :: k < |line| ==> s[k] == line[k];
    assert FirstBlank(s) == None;
  }
}
