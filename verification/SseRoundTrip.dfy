/** From the relay's broadcasts to the recorder's callback: the frames the relay prints are read back
    as the JSON values it pushed. */
module SseRoundTrip {
  import opened Prelude
  import opened Text
  import opened Json
  import opened Messages
  import opened RelayState
  import opened SseReader
  import RelayRuns
  import RelayAnswers
  import JsonReading

  // ---- what the relay prints ----

  /** The members of the relay's own messages. */
  function PushMembers(push: Push): seq<Member>
    requires !push.Forwarded?
  {
    match push
    case Hello(b) => [Typed("hello"), Member("extensionConnected", Some(JBool(b)))]
    case Status(b) => [Typed("status"), Member("extensionConnected", Some(JBool(b)))]
    case BadMessage(text, info) =>
      [Typed("extension-message-parse-error"), Member("error", Some(JString(info.message))),
       Member("errorInfo", Some(ErrorInfoJson(info))), Member("raw", Some(JString(text)))]
    case Orphan(m) =>
      [Typed("orphan-response"), Member("result", Some(OrNull(Prop(m, "result")))),
       Member("error", Some(OrNull(Prop(m, "error")))), Member("errorInfo", Some(OrNull(Prop(m, "errorInfo"))))]
    case UnknownMessage(raw) => [Typed("unknown-from-extension"), Member("raw", Some(raw))]
  }

  function Typed(t: string): Member { Member("type", Some(JString(t))) }

  /** The value handed to `JSON.stringify` for each kind of push. */
  function PushJson(push: Push): Json {
    if push.Forwarded? then push.message else Object(PushMembers(push))
  }

  const KEEPALIVE := ": keepalive"

  function FrameText(frame: Frame): string {
    match frame
    case Data(push) => "data: " + Stringify(PushJson(push)) + "\n\n"
    case Comment => KEEPALIVE + "\n\n"
  }

  function StreamText(frames: seq<Frame>): string {
    if frames == [] then ""
    else StreamText(frames[..|frames| - 1]) + FrameText(frames[|frames| - 1])
  }

  // ---- one frame ----

  lemma OneEvent(line: string)
    requires line != "" && '\n' !in line && '\r' !in line
    ensures Texts(line + "\n\n") == ToSeq(JoinData(DataValues([line]))) && Residual(line + "\n\n") == ""
  {
    var s := line + "\n\n";
    assert BlankAt(s, |line|) && forall k: nat :: k < |line| ==> s[k] == line[k];
    FirstBlankIs(s, |line|);
    assert s[..|line|] == line && s[|line| + 2..] == "";
    assert SplitLines(line) == [line];
    assert Texts("") == [] && Residual("") == "";
  }

  lemma DataEvent(text: string)
    requires Tidy(text, true)
    ensures Texts("data: " + text + "\n\n") == [text] && Residual("data: " + text + "\n\n") == ""
  {
    assert DATA + " " + text == "data: " + text;
    DataLine(text);
    OneEvent("data: " + text);
  }

  lemma DataFrame(push: Push)
    ensures Texts(FrameText(Data(push))) == [Stringify(PushJson(push))]
    ensures Residual(FrameText(Data(push))) == ""
  {
    PrintTidy(PushJson(push), 0, 0);
    DataEvent(Stringify(PushJson(push)));
  }

  lemma DataLine(value: string)
    requires value != "" && !IsWhitespace(value[0])
    ensures DataValues([DATA + " " + value]) == [value]
  {
    var line := DATA + " " + value;
    assert line[..|DATA|] == DATA && line[|DATA|..] == " " + value;
    assert (" " + value)[1..] == value;
    assert TrimStart(value) == value;
    assert DataValue(line) == Some(value);
    assert DataValues([line]) == [value] + DataValues([]);
  }

  lemma CommentFrame()
    ensures Texts(FrameText(Comment)) == [] && Residual(FrameText(Comment)) == ""
  {
    OneEvent(KEEPALIVE);
    NoDataLine(KEEPALIVE);
  }

  lemma NoDataLine(line: string)
    requires line != "" && line[0] == ':'
    ensures JoinData(DataValues([line])) == None
  {
    assert DATA[0] == 'd';
    assert |line| >= |DATA| ==> line[..|DATA|][0] == line[0];
    assert DataValues([line]) == DataValues([]);
  }

  // ---- whole streams ----

  function Prints(pushes: seq<Push>): seq<string> {
    seq(|pushes|, i requires 0 <= i < |pushes| => Stringify(PushJson(pushes[i])))
  }

  /** Keepalives contribute nothing; every push is read back, in order; nothing is left over. */
  lemma {:induction false} StreamTexts(frames: seq<Frame>)
    ensures Texts(StreamText(frames)) == Prints(RelayRuns.Pushes(frames)) && Residual(StreamText(frames)) == ""
  {
    if frames == [] {
      assert FirstBlank("") == None;
    } else {
      var before, last := frames[..|frames| - 1], frames[|frames| - 1];
      StreamTexts(before);
      OneMoreFrame(StreamText(before), last);
      PrintsSnoc(RelayRuns.Pushes(before), last);
    }
  }

  function PushedBy(frame: Frame): seq<Push> { if frame.Data? then [frame.push] else [] }

  lemma PrintsSnoc(pushes: seq<Push>, frame: Frame)
    ensures Prints(pushes + PushedBy(frame)) == Prints(pushes) + Prints(PushedBy(frame))
  {
  }

  lemma OneMoreFrame(text: string, frame: Frame)
    requires Residual(text) == ""
    ensures Texts(text + FrameText(frame)) == Texts(text) + Prints(PushedBy(frame))
    ensures Residual(text + FrameText(frame)) == ""
  {
    TwoPieces(text, FrameText(frame));
    assert "" + FrameText(frame) == FrameText(frame);
    FrameReads(frame);
  }

  lemma FrameReads(frame: Frame)
    ensures Texts(FrameText(frame)) == Prints(PushedBy(frame)) && Residual(FrameText(frame)) == ""
  {
    match frame
    case Data(push) =>
      DataFrame(push);
      assert Prints([push]) == [Stringify(PushJson(push))];
    case Comment => CommentFrame();
  }

  function Deliveries(pushes: seq<Push>): seq<Call<Json>> {
    seq(|pushes|, i requires 0 <= i < |pushes| => Message(PushJson(pushes[i])))
  }

  /** `JSON.parse` reads back what was printed for these pushes, and the callback takes the values. */
  ghost predicate Inverts(sink: Sink<Json>, pushes: seq<Push>) {
    forall p :: p in pushes ==>
      sink.parse(Stringify(PushJson(p))) == Some(PushJson(p)) && !sink.throws(PushJson(p))
  }

  lemma {:induction false} CallsAreDeliveries(sink: Sink<Json>, pushes: seq<Push>)
    requires Inverts(sink, pushes)
    ensures Calls(sink, Prints(pushes)) == Deliveries(pushes)
  {
    if pushes != [] {
      assert Prints(pushes)[1..] == Prints(pushes[1..]);
      CallsAreDeliveries(sink, pushes[1..]);
      assert Deliveries(pushes) == [Message(PushJson(pushes[0]))] + Deliveries(pushes[1..]);
    }
  }

  /** Round trip: however a stream of frames is cut into chunks, the callback gets exactly the pushed values. */
  lemma ReadsBack(sink: Sink<Json>, frames: seq<Frame>, chunks: seq<string>)
    requires Flatten(chunks) == StreamText(frames) && Inverts(sink, RelayRuns.Pushes(frames))
    ensures Calls(sink, Texts(Flatten(chunks))) == Deliveries(RelayRuns.Pushes(frames))
    ensures Residual(Flatten(chunks)) == ""
  {
    StreamTexts(frames);
    CallsAreDeliveries(sink, RelayRuns.Pushes(frames));
  }

  /** A reader that has received only part of the stream got a prefix of the values, each one whole. */
  lemma ReadsPrefix(sink: Sink<Json>, frames: seq<Frame>, received: string, missing: string)
    requires received + missing == StreamText(frames) && Inverts(sink, RelayRuns.Pushes(frames))
    ensures Calls(sink, Texts(received)) <= Deliveries(RelayRuns.Pushes(frames))
  {
    ReadsBack(sink, frames, [StreamText(frames)]);
    assert Flatten([StreamText(frames)]) == StreamText(frames) + Flatten([]);
    TwoPieces(received, missing);
    CallsConcat(sink, Texts(received), Texts(Residual(received) + missing));
  }

  /** A greeted client was pushed a hello, then what it heard. */
  lemma GreetedFirst(s: State, c: ClientId)
    requires RelayRuns.Inv(s) && c in s.feeds && s.feeds[c].greeted
    ensures exists b :: RelayRuns.Pushes(s.feeds[c].frames) == [Hello(b)] + RelayRuns.Heard(s.feeds[c])
  {
    assert RelayRuns.FeedMatch(s, c);
    var all := RelayRuns.Pushes(s.feeds[c].frames);
    assert all == [all[0]] + all[1..];
    assert all[0] == Hello(all[0].extensionConnected);
  }

  lemma {:induction false} FirstPush(frames: seq<Frame>)
    requires frames != [] && frames[0].Data?
    ensures RelayRuns.Pushes(frames) != [] && RelayRuns.Pushes(frames)[0] == frames[0].push
    decreases |frames|
  {
    if |frames| > 1 {
      FirstPush(frames[..|frames| - 1]);
    } else {
      assert frames[..0] == [];
    }
  }

  /** Fan-out end to end: a client that subscribed at some step and was greeted, is still live, and reads its
      stream to the end, in any chunks, is handed a hello that tells whether an extension was connected
      when it subscribed, and then exactly the broadcasts made since. */
  lemma ClientHearsBroadcasts(states: seq<State>, inputs: seq<Input>, k: nat, n: nat, sink: Sink<Json>, chunks: seq<string>)
    requires RelayRuns.IsRun(states, inputs) && k < n < |states|
    requires inputs[k].Subscribed? && inputs[k].greeted && inputs[k].client in states[n].sseClients
    requires inputs[k].client in states[n].feeds
    requires Flatten(chunks) == StreamText(states[n].feeds[inputs[k].client].frames)
    requires Inverts(sink, RelayRuns.Pushes(states[n].feeds[inputs[k].client].frames))
    ensures var connected := states[k].extension.Some? && states[k].extension.value in inputs[k].open;
            && |states[k].broadcasts| <= |states[n].broadcasts|
            && Calls(sink, Texts(Flatten(chunks))) ==
                 Deliveries([Hello(connected)] + states[n].broadcasts[|states[k].broadcasts|..])
  {
    var s, c := states[n], inputs[k].client;
    var feed := s.feeds[c];
    RelayRuns.RunInv(states, inputs, n);
    assert RelayRuns.FeedMatch(s, c);
    RelayAnswers.HelloTellsTheTruth(states, inputs, k, n, c);
    FirstPush(feed.frames);
    GreetedFirst(s, c);
    ReadsBack(sink, feed.frames, chunks);
  }

  /** Whatever a client was ever pushed is a hello or a broadcast. */
  lemma PushesAreBroadcasts(s: State, c: ClientId, p: Push)
    requires RelayRuns.Inv(s) && c in s.feeds && p in RelayRuns.Pushes(s.feeds[c].frames)
    ensures p.Hello? || p in s.broadcasts
  {
    var feed := s.feeds[c];
    assert RelayRuns.FeedMatch(s, c);
    var heard := RelayRuns.Heard(feed);
    if p in heard {
      var i :| 0 <= i < |heard| && heard[i] == p;
      assert s.broadcasts[feed.since..][i] == p;
    }
  }

  // ---- what the relay's messages look like to a client ----

  /** Each message of the relay's own says its type, and what it is about. */
  lemma MessagesSayWhatTheyMean(push: Push)
    ensures var j := PushJson(push);
            match push
            case Hello(connected) =>
              Prop(j, "type") == Some(JString("hello")) && Prop(j, "extensionConnected") == Some(JBool(connected))
            case Status(connected) =>
              Prop(j, "type") == Some(JString("status")) && Prop(j, "extensionConnected") == Some(JBool(connected))
            case BadMessage(text, info) =>
              && Prop(j, "type") == Some(JString("extension-message-parse-error")) && Prop(j, "raw") == Some(JString(text))
              && Prop(j, "error") == Some(JString(info.message))
              && (ValidInfo(info) ==>
                    Prop(j, "errorInfo").Some? && IsErrorInfo(Prop(j, "errorInfo").value) &&
                    DecodeErrorInfo(Prop(j, "errorInfo").value) == info)
            case Orphan(m) =>
              && Prop(j, "type") == Some(JString("orphan-response"))
              && forall key :: key in ["result", "error", "errorInfo"] ==>
                   Prop(j, key) == Some(if Prop(m, key).Some? then Prop(m, key).value else JNull)
            case UnknownMessage(raw) =>
              Prop(j, "type") == Some(JString("unknown-from-extension")) && Prop(j, "raw") == Some(raw)
            case Forwarded(message) => j == message
  {
    if !push.Forwarded? {
      var members := PushMembers(push);
      ObjectProp(members, 0);
      ObjectProp(members, 1);
      if push.BadMessage? || push.Orphan? {
        ObjectProp(members, 2);
        ObjectProp(members, 3);
      }
      if push.BadMessage? && ValidInfo(push.errorInfo) {
        ErrorInfoRoundTrip(push.errorInfo);
      }
    }
  }

  /** Of the relay's own messages, none carries the member `method`. */
  lemma OwnMessagesHaveNoMethod(push: Push)
    requires !push.Forwarded?
    ensures Prop(PushJson(push), "method") == None
  {
    AbsentKey(PushMembers(push), "method");
  }

  /** Only events and logs are forwarded. */
  ghost predicate Screened(pushes: seq<Push>) {
    forall p :: p in pushes && p.Forwarded? ==> Classify(p.message).EventOrLog?
  }

  lemma {:induction false} NewsIsScreened(inputs: seq<Input>)
    ensures forall m :: m in RelayRuns.News(inputs) ==> Classify(m).EventOrLog?
  {
    if inputs != [] {
      NewsIsScreened(inputs[..|inputs| - 1]);
    }
  }

  lemma ScreenedByForwards(pushes: seq<Push>)
    requires forall m :: m in RelayRuns.Forwards(pushes) ==> Classify(m).EventOrLog?
    ensures Screened(pushes)
  {
    forall p | p in pushes && p.Forwarded?
      ensures Classify(p.message).EventOrLog?
    {
      var i :| 0 <= i < |pushes| && pushes[i] == p;
      RelayRuns.ForwardsContain(pushes, i);
    }
  }

  lemma RunScreened(states: seq<State>, inputs: seq<Input>, n: nat)
    requires RelayRuns.IsRun(states, inputs) && n < |states|
    ensures Screened(states[n].broadcasts)
  {
    RelayRuns.ForwardsTheNews(states, inputs, n);
    NewsIsScreened(inputs[..n]);
    ScreenedByForwards(states[n].broadcasts);
  }

  /** `Inverts` asks for nothing a reader cannot do: JSON texts can be read back. */
  lemma SomeReaderInverts(pushes: seq<Push>)
    ensures Inverts(Sink(s => JsonReading.Parse(s), j => false), pushes)
  {
    forall p | p in pushes
      ensures JsonReading.Parse(Stringify(PushJson(p))) == Some(PushJson(p))
    {
      JsonReading.ParseInverts(PushJson(p), 0);
    }
  }
}
