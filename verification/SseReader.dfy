/** The recorder's incremental reader of the relay's event stream (`streamSse`). */
module SseReader {
  import opened Prelude
  import opened Text

  /** One call of the `onMessage` callback. */
  datatype Call<J> = Message(json: J) | ParseError(raw: string)

  /** What the reader is given: `JSON.parse`, and which messages make `onMessage` throw. */
  datatype Sink<!J> = Sink(parse: string -> Option<J>, throws: J -> bool)

  // ---- one raw event: the text before a blank line ----

  function IndexOf(s: string, c: char): (r: Option<nat>)
    ensures r.None? ==> c !in s
    ensures r.Some? ==> r.value < |s| && s[r.value] == c && c !in s[..r.value]
  {
    if s == "" then None
    else if s[0] == c then Some(0)
    else match IndexOf(s[1..], c)
      case None => None
      case Some(i) =>
        assert s[..i + 1] == [s[0]] + s[1..][..i];
        Some(i + 1)
  }

  function DropLastCr(s: string): string {
    if s != "" && s[|s| - 1] == '\r' then s[..|s| - 1] else s
  }

  /** `s.split(/\r?\n/)` */
  function SplitLines(s: string): seq<string> {
    match IndexOf(s, '\n')
    case None => [s]
    case Some(i) => [DropLastCr(s[..i])] + SplitLines(s[i + 1..])
  }

  const DATA := "data:"

  /** The value of a line that starts with `data:`. */
  function DataValue(line: string): Option<string> {
    if StartsWith(line, DATA) then Some(TrimStart(line[|DATA|..])) else None
  }

  function DataValues(lines: seq<string>): seq<string> {
    if lines == [] then []
    else
      match DataValue(lines[0])
      case None => DataValues(lines[1..])
      case Some(v) => [v] + DataValues(lines[1..])
  }

  /** A line of a raw event ends at LF or at CRLF. */
  lemma LinesEndEitherWay(line: string, rest: string)
    requires '\n' !in line && '\r' !in line
    ensures SplitLines(line + "\n" + rest) == [line] + SplitLines(rest)
    ensures SplitLines(line + "\r\n" + rest) == [line] + SplitLines(rest)
    ensures SplitLines(line) == [line]
  {
    FirstIs(line, rest);
    FirstIs(line + "\r", rest);
    assert line + "\r\n" + rest == (line + "\r") + "\n" + rest;
    assert (line + "\r")[..|line|] == line;
  }

  lemma {:induction false} IndexIs(s: string, i: nat, c: char)
    requires i < |s| && s[i] == c && c !in s[..i]
    ensures IndexOf(s, c) == Some(i)
    decreases i
  {
    if i > 0 {
      assert s[0] in s[..i] && s[1..][..i - 1] == s[..i][1..];
      IndexIs(s[1..], i - 1, c);
    }
  }

  lemma FirstIs(a: string, rest: string)
    requires '\n' !in a
    ensures IndexOf(a + "\n" + rest, '\n') == Some(|a|)
    ensures (a + "\n" + rest)[..|a|] == a && (a + "\n" + rest)[|a| + 1..] == rest
  {
    var s := a + "\n" + rest;
    assert s[..|a|] == a;
    IndexIs(s, |a|, '\n');
  }

  function JoinData(values: seq<string>): Option<string> {
    if values == [] then None else Some(Join(values, "\n"))
  }

  /** The data text of a raw event, if it has a data line. */
  function DataText(raw: string): Option<string> { JoinData(DataValues(SplitLines(raw))) }

  function ToSeq<T>(o: Option<T>): seq<T> { if o.Some? then [o.value] else [] }

  // ---- whole streams ----

  /** The data texts of all the events of `s` that are closed by a blank line, in order. */
  function Texts(s: string): seq<string>
    decreases |s|
  {
    match FirstBlank(s)
    case None => []
    case Some(i) => ToSeq(DataText(s[..i])) + Texts(s[i + 2..])
  }

  /** What is left in the buffer: the event not closed yet. */
  function Residual(s: string): string
    decreases |s|
  {
    match FirstBlank(s)
    case None => s
    case Some(i) => Residual(s[i + 2..])
  }

  /** The calls one data text leads to: a callback that throws is called again with the raw text. */
  function CallsFor<J>(sink: Sink<J>, text: string): seq<Call<J>> {
    match sink.parse(text)
    case None => [ParseError(text)]
    case Some(v) => [Message(v)] + (if sink.throws(v) then [ParseError(text)] else [])
  }

  function Calls<J>(sink: Sink<J>, texts: seq<string>): seq<Call<J>> {
    if texts == [] then [] else CallsFor(sink, texts[0]) + Calls(sink, texts[1..])
  }

  /** Each data text is handed over once, parsed, or as it is if it is no JSON; and once more as it is if the
      callback throws on its value. */
  lemma {:induction false} CallsSpelledOut<J>(sink: Sink<J>, texts: seq<string>)
    requires forall t :: t in texts && sink.parse(t).Some? ==> !sink.throws(sink.parse(t).value)
    ensures |Calls(sink, texts)| == |texts|
    ensures forall i :: 0 <= i < |texts| ==>
              Calls(sink, texts)[i] ==
              if sink.parse(texts[i]).Some? then Message(sink.parse(texts[i]).value) else ParseError(texts[i])
  {
    if texts != [] {
      CallsSpelledOut(sink, texts[1..]);
      forall i | 0 <= i < |texts|
        ensures Calls(sink, texts)[i] ==
                if sink.parse(texts[i]).Some? then Message(sink.parse(texts[i]).value) else ParseError(texts[i])
      {
        assert i > 0 ==> texts[i] == texts[1..][i - 1] && Calls(sink, texts)[i] == Calls(sink, texts[1..])[i - 1];
      }
    }
  }

  lemma ThrowIsToldAsText<J>(sink: Sink<J>, text: string)
    requires sink.parse(text).Some? && sink.throws(sink.parse(text).value)
    ensures Calls(sink, [text]) == [Message(sink.parse(text).value), ParseError(text)]
  {
    assert Calls(sink, [text]) == CallsFor(sink, text) + Calls(sink, []);
  }

  lemma {:induction false} CallsConcat<J>(sink: Sink<J>, a: seq<string>, b: seq<string>)
    ensures Calls(sink, a + b) == Calls(sink, a) + Calls(sink, b)
  {
    if a == [] {
      assert a + b == b;
    } else {
      assert (a + b)[1..] == a[1..] + b;
      CallsConcat(sink, a[1..], b);
    }
  }

  /** Reading a text in two pieces gives the same events and the same buffer as reading it whole,
      wherever the cut falls, inside a separator included. */
  lemma {:induction false} TwoPieces(a: string, b: string)
    ensures Texts(a + b) == Texts(a) + Texts(Residual(a) + b)
    ensures Residual(a + b) == Residual(Residual(a) + b)
    decreases |a|
  {
    match FirstBlank(a)
    case None =>
    case Some(i) =>
      TwoPieces(a[i + 2..], b);
      FirstEvent(a, b, i);
      Reassociate(ToSeq(DataText(a[..i])), Texts(a[i + 2..]), Texts(Residual(a[i + 2..]) + b));
  }

  lemma FirstEvent(a: string, b: string, i: nat)
    requires FirstBlank(a) == Some(i)
    ensures Texts(a + b) == ToSeq(DataText(a[..i])) + Texts(a[i + 2..] + b)
    ensures Residual(a + b) == Residual(a[i + 2..] + b)
  {
    SeparatorKept(a, b, i);
    assert (a + b)[..i] == a[..i] && (a + b)[i + 2..] == a[i + 2..] + b;
  }

  lemma SeparatorKept(a: string, b: string, i: nat)
    requires FirstBlank(a) == Some(i)
    ensures FirstBlank(a + b) == Some(i)
  {
    forall k: nat | k < i
      ensures !BlankAt(a + b, k)
    {
      assert !BlankAt(a, k);
    }
    assert BlankAt(a, i);
    FirstBlankIs(a + b, i);
  }

  /** A residual holds no closed event, so reading it again yields nothing. */
  lemma {:induction false} ResidualIsQuiet(s: string)
    ensures Texts(Residual(s)) == [] && Residual(Residual(s)) == Residual(s)
    decreases |s|
  {
    match FirstBlank(s)
    case None =>
    case Some(i) => ResidualIsQuiet(s[i + 2..]);
  }

  /** One raw event: collect its data lines, parse their text, and hand it to the callback. */
  method Deliver<J>(sink: Sink<J>, rawEvent: string) returns (calls: seq<Call<J>>)
    ensures calls == Calls(sink, ToSeq(DataText(rawEvent)))
  {
    var dataLines := DataValues(SplitLines(rawEvent));
    if dataLines == [] {
      return [];
    }
    var dataText := Join(dataLines, "\n");
    assert Calls(sink, [dataText]) == CallsFor(sink, dataText) + Calls(sink, []);
    match sink.parse(dataText)
    case None =>
      calls := [ParseError(dataText)];
    case Some(v) =>
      calls := [Message(v)];
      if sink.throws(v) {
        calls := calls + [ParseError(dataText)];
      }
  }

  /** Cutting one closed event off the buffer moves its calls from what is outstanding to what is done. */
  lemma DrainStep<J>(sink: Sink<J>, done: seq<Call<J>>, buffer: string, i: nat)
    requires FirstBlank(buffer) == Some(i)
    ensures Residual(buffer) == Residual(buffer[i + 2..])
    ensures done + Calls(sink, Texts(buffer)) ==
            done + Calls(sink, ToSeq(DataText(buffer[..i]))) + Calls(sink, Texts(buffer[i + 2..]))
  {
    CallsConcat(sink, ToSeq(DataText(buffer[..i])), Texts(buffer[i + 2..]));
  }

  lemma Drained<J>(sink: Sink<J>, done: seq<Call<J>>, buffer: string)
    requires FirstBlank(buffer) == None
    ensures done + Calls(sink, Texts(buffer)) == done && Residual(buffer) == buffer
  {
  }

  /** The inner loop: cut closed events off the front of the buffer until none is left. */
  method DrainBuffer<J>(sink: Sink<J>, whole: string) returns (calls: seq<Call<J>>, buffer: string)
    ensures calls == Calls(sink, Texts(whole))
    ensures buffer == Residual(whole)
  {
    calls, buffer := [], whole;
    while true
      invariant calls + Calls(sink, Texts(buffer)) == Calls(sink, Texts(whole))
      invariant Residual(buffer) == Residual(whole)
      decreases |buffer|
    {
      var sep := FirstBlank(buffer);
      if sep == None {
        Drained(sink, calls, buffer);
        break;
      }
      DrainStep(sink, calls, buffer, sep.value);
      var more := Deliver(sink, buffer[..sep.value]);
      calls, buffer := calls + more, buffer[sep.value + 2..];
    }
  }

  /** The read loop over one response body. Whatever the chunking, the callback sees the events of
      the whole text and the buffer ends as its unclosed tail. */
  method ReadBody<J>(sink: Sink<J>, chunks: seq<string>) returns (calls: seq<Call<J>>, buffer: string)
    ensures calls == Calls(sink, Texts(Flatten(chunks)))
    ensures buffer == Residual(Flatten(chunks))
  {
    calls, buffer := [], "";
    for n := 0 to |chunks|
      invariant calls == Calls(sink, Texts(Flatten(chunks[..n])))
      invariant buffer == Residual(Flatten(chunks[..n]))
    {
      assert chunks[..n + 1] == chunks[..n] + [chunks[n]];
      FlattenSnoc(chunks[..n], chunks[n]);
      TwoPieces(Flatten(chunks[..n]), chunks[n]);
      CallsConcat(sink, Texts(Flatten(chunks[..n])), Texts(buffer + chunks[n]));
      var more;
      more, buffer := DrainBuffer(sink, buffer + chunks[n]);
      assert more == Calls(sink, Texts(Residual(Flatten(chunks[..n])) + chunks[n]));
      calls := calls + more;
    }
    assert chunks[..|chunks|] == chunks;
  }

  /** What one connection attempt yields: it is refused, or a body arrives in chunks. `stopped` tells
      whether the stop signal ended it; the signal aborts the read or the fetch under way. */
  datatype Attempt = Refused(stopped: bool) | Body(chunks: seq<string>, stopped: bool)

  function AttemptCalls<J>(sink: Sink<J>, attempt: Attempt): seq<Call<J>> {
    if attempt.Refused? then [] else Calls(sink, Texts(Flatten(attempt.chunks)))
  }

  /** The calls of each body, up to the stop. */
  function AllCalls<J>(sink: Sink<J>, attempts: seq<Attempt>): seq<Call<J>> {
    if attempts == [] then []
    else AttemptCalls(sink, attempts[0]) + (if attempts[0].stopped then [] else AllCalls(sink, attempts[1..]))
  }

  /** Bodies that were not stopped are read one after the other; after a stop, no call is made. */
  lemma {:induction false} StopEndsCalls<J>(sink: Sink<J>, before: seq<Attempt>, rest: seq<Attempt>)
    requires forall a :: a in before ==> !a.stopped
    ensures AllCalls(sink, before + rest) == FlatMap(a => AttemptCalls(sink, a), before) + AllCalls(sink, rest)
    ensures rest != [] && rest[0].stopped ==> AllCalls(sink, rest) == AttemptCalls(sink, rest[0])
    decreases |before|
  {
    if before == [] {
      assert before + rest == rest;
    } else {
      assert (before + rest)[0] == before[0] && (before + rest)[1..] == before[1..] + rest;
      StopEndsCalls(sink, before[1..], rest);
      FlatMapFront(a => AttemptCalls(sink, a), before);
      Reassociate(AttemptCalls(sink, before[0]), FlatMap(a => AttemptCalls(sink, a), before[1..]), AllCalls(sink, rest));
    }
  }

  function Outstanding<J>(sink: Sink<J>, attempts: seq<Attempt>, stopped: bool): seq<Call<J>> {
    if stopped then [] else AllCalls(sink, attempts)
  }

  lemma OneAttempt<J>(sink: Sink<J>, calls: seq<Call<J>>, attempts: seq<Attempt>, n: nat)
    requires n < |attempts|
    ensures calls + AllCalls(sink, attempts[n..]) ==
            calls + AttemptCalls(sink, attempts[n]) + Outstanding(sink, attempts[n + 1..], attempts[n].stopped)
  {
    assert attempts[n..][1..] == attempts[n + 1..];
    Reassociate(calls, AttemptCalls(sink, attempts[n]), Outstanding(sink, attempts[n + 1..], attempts[n].stopped));
  }

  /** The reconnecting reader: every body starts with an empty buffer, so an event cut off by a
      disconnect never reaches the callback and never leaks into the next body. Once stopped, it
      neither reconnects nor calls back. */
  method StreamSse<J>(sink: Sink<J>, attempts: seq<Attempt>) returns (calls: seq<Call<J>>)
    ensures calls == AllCalls(sink, attempts)
  {
    calls := [];
    var n, stopped := 0, false;
    while n < |attempts| && !stopped
      invariant n <= |attempts|
      invariant calls + Outstanding(sink, attempts[n..], stopped) == AllCalls(sink, attempts)
    {
      OneAttempt(sink, calls, attempts, n);
      var more := [];
      if attempts[n].Body? {
        var rest;
        more, rest := ReadBody(sink, attempts[n].chunks);
      }
      calls := calls + more;
      n, stopped := n + 1, attempts[n].stopped;
    }
  }
}
