/** From the browser's events to the recorder's file: a recorder that reads the stream of a relay to
    which the extension is connected. */
module EndToEnd {
  import opened Prelude
  import opened Text
  import opened Json
  import opened Messages
  import opened RelayState
  import RelayRuns
  import opened SseReader
  import opened SseRoundTrip
  import Bridge
  import BridgeAccounts
  import Rec = RecorderState
  import RecorderRuns
  import RecorderFilters
  import RecorderIndependence
  import RecorderEffects
  import EventReading

  // ---- what the reader hands to the recorder ----

  /** The message a data text is replaced by if it is no JSON, or if the callback threw on it. */
  function ParseErrorJson(raw: string): Json {
    Object([Member("method", Some(JString("sse_parse_error"))), Member("raw", Some(JString(raw)))])
  }

  function CallJson(call: Call<Json>): Json {
    match call
    case Message(json) => json
    case ParseError(raw) => ParseErrorJson(raw)
  }

  /** The recorder's `onMsg` as the callback of the reader. */
  function RecorderSink(cfg: Rec.Config, parse: string -> Option<Json>): Sink<Json> {
    Sink(parse, j => Rec.ThrowsOn(cfg, j))
  }

  /** The callback never throws on its second call, so no exception leaves the reading loop. */
  lemma SecondCallIsSafe(cfg: Rec.Config, raw: string)
    ensures Rec.Decode(ParseErrorJson(raw)) == Rec.ParseErrorMsg(Some(JString(raw)))
    ensures !Rec.ThrowsOn(cfg, ParseErrorJson(raw))
  {
    var members := [Member("method", Some(JString("sse_parse_error"))), Member("raw", Some(JString(raw)))];
    ObjectProp(members, 0);
    ObjectProp(members, 1);
  }

  /** The messages a recorder run was handed, in order. */
  function Fed(inputs: seq<Rec.Input>): seq<Json> {
    if inputs == [] then []
    else
      var last := inputs[|inputs| - 1];
      Fed(inputs[..|inputs| - 1]) + (if last.Received? then [last.message] else [])
  }

  lemma {:induction false} FedContains(inputs: seq<Rec.Input>, i: nat)
    requires i < |inputs| && inputs[i].Received?
    ensures inputs[i].message in Fed(inputs)
    decreases |inputs|
  {
    if i < |inputs| - 1 {
      FedContains(inputs[..|inputs| - 1], i);
    }
  }

  /** `parse` reads back what the relay prints for these pushes. */
  ghost predicate ReadsPrints(parse: string -> Option<Json>, pushes: seq<Push>) {
    forall p :: p in pushes ==> parse(Stringify(PushJson(p))) == Some(PushJson(p))
  }

  /** The recorder was handed a first part of what the reader makes of `received`, a first part of the
      client's stream; nothing is assumed on where either was cut. */
  ghost predicate ReadsStream(cfg: Rec.Config, parse: string -> Option<Json>, frames: seq<Frame>,
                              received: string, fed: seq<Json>) {
    && received <= StreamText(frames)
    && ReadsPrints(parse, RelayRuns.Pushes(frames))
    && |fed| <= |Calls(RecorderSink(cfg, parse), Texts(received))|
    && forall i :: 0 <= i < |fed| ==> fed[i] == CallJson(Calls(RecorderSink(cfg, parse), Texts(received))[i])
  }

  // ---- how the recorder takes the relay's messages ----

  /** The relay's own messages mean nothing to the recorder. */
  lemma OwnMessageIsIgnored(push: Push)
    requires !push.Forwarded?
    ensures Rec.Decode(PushJson(push)) == Rec.OtherMsg
  {
    OwnMessagesHaveNoMethod(push);
  }

  /** Nor does a log; an event with a name is taken for one, an event without is ignored. */
  lemma ForwardedIsTaken(message: Json)
    requires Classify(message).EventOrLog?
    ensures Rec.Decode(message).EventMsg? || Rec.Decode(message).OtherMsg?
  {
  }

  lemma PushIsHarmless(cfg: Rec.Config, push: Push)
    requires push.Forwarded? ==> Classify(push.message).EventOrLog?
    ensures Rec.Decode(PushJson(push)).EventMsg? || Rec.Decode(PushJson(push)).OtherMsg?
    ensures !Rec.ThrowsOn(cfg, PushJson(push))
  {
    if push.Forwarded? {
      ForwardedIsTaken(push.message);
    } else {
      OwnMessageIsIgnored(push);
    }
  }

  /** Everything the recorder is handed is the message of a push, and its callback never throws. */
  lemma FedIsPushed(cfg: Rec.Config, parse: string -> Option<Json>, frames: seq<Frame>, received: string,
                    fed: seq<Json>, i: nat)
    requires ReadsStream(cfg, parse, frames, received, fed) && i < |fed|
    requires Screened(RelayRuns.Pushes(frames))
    ensures i < |RelayRuns.Pushes(frames)| && fed[i] == PushJson(RelayRuns.Pushes(frames)[i])
  {
    var sink, pushes := RecorderSink(cfg, parse), RelayRuns.Pushes(frames);
    forall q | q in pushes
      ensures !sink.throws(PushJson(q))
    {
      PushIsHarmless(cfg, q);
    }
    assert received + StreamText(frames)[|received|..] == StreamText(frames);
    ReadsPrefix(sink, frames, received, StreamText(frames)[|received|..]);
    assert Calls(sink, Texts(received))[i] == Deliveries(pushes)[i] == SseReader.Message(PushJson(pushes[i]));
  }

  // ---- no noise ----

  predicate IsNoise(r: Rec.OutRecord) { r.StatusRecord? || r.StreamError? }

  predicate NoNoise(output: seq<Rec.OutRecord>) { forall r :: r in output ==> !IsNoise(r) }

  lemma {:induction false} EmitAllNoNoise(s: Rec.State, ids: seq<string>)
    requires NoNoise(s.output)
    ensures NoNoise(Rec.EmitAll(s, ids).output)
    decreases |ids|
  {
    if ids != [] {
      EmitAllNoNoise(Rec.EmitHttpAndDelete(s, ids[0]), ids[1..]);
    }
  }

  lemma LocalNoNoise(s: Rec.State, s': Rec.State, id: string)
    requires NoNoise(s.output) && RecorderRuns.OthersKept(s, s', id)
    ensures NoNoise(s'.output)
  {
    forall r | r in s'.output
      ensures !IsNoise(r)
    {
      var i :| 0 <= i < |s'.output| && s'.output[i] == r;
      if i < |s.output| {
        assert s.output[i] == r;
      } else {
        assert RecorderRuns.IsAbout(s'.output[i], id);
      }
    }
  }

  lemma EventNoNoise(cfg: Rec.Config, s: Rec.State, ev: Rec.CdpEvent)
    requires RecorderRuns.RecordsMatch(s) && NoNoise(s.output)
    ensures NoNoise(Rec.OnEvent(cfg, s, ev).output)
  {
    var mid, id := Rec.OnHttpEvent(cfg, s, ev), ev.params.requestId;
    RecorderRuns.ByKind(cfg, s, ev);
    RecorderRuns.KindIsLocal(cfg, s, ev, mid);
    LocalNoNoise(s, mid, id);
    RecorderRuns.WsIsLocal(cfg, mid, ev);
    LocalNoNoise(mid, Rec.OnWsEvent(cfg, mid, ev), id);
  }

  lemma StepNoNoise(cfg: Rec.Config, s: Rec.State, input: Rec.Input)
    requires RecorderRuns.RecordsMatch(s) && NoNoise(s.output) && Rec.Enabled(s, input)
    requires IsHarmless(input)
    ensures NoNoise(Rec.Step(cfg, s, input).output)
  {
    match input
    case Received(message) =>
      if Rec.Decode(message).EventMsg? {
        EventNoNoise(cfg, s, Rec.Decode(message).event);
      }
    case CleanupCalled(reason) =>
      EmitAllNoNoise(s.(cleaned := true, stopReason := Rec.OrElse(s.stopReason, Some(reason))), s.httpRecords.keys);
    case PostArrives(_, _) =>
    case BodyArrives(_, _, _, _) =>
    case WriterCloses =>
  }

  lemma {:induction false} RunNoNoise(cfg: Rec.Config, states: seq<Rec.State>, inputs: seq<Rec.Input>, n: nat)
    requires RecorderRuns.IsRun(cfg, states, inputs) && n < |states|
    requires forall i :: 0 <= i < n ==> IsHarmless(inputs[i])
    ensures NoNoise(states[n].output)
  {
    if n > 0 {
      RunNoNoise(cfg, states, inputs, n - 1);
      RecorderRuns.RunBooks(cfg, states, inputs, n - 1);
      assert Rec.Enabled(states[n - 1], inputs[n - 1]);
      StepNoNoise(cfg, states[n - 1], inputs[n - 1]);
    }
  }

  /** A message that a recorder run was handed is that of some push. */
  lemma InputIsPushed(cfg: Rec.Config, parse: string -> Option<Json>, frames: seq<Frame>, received: string,
                      inputs: seq<Rec.Input>, i: nat) returns (p: Push)
    requires ReadsStream(cfg, parse, frames, received, Fed(inputs)) && Screened(RelayRuns.Pushes(frames))
    requires i < |inputs| && inputs[i].Received?
    ensures p in RelayRuns.Pushes(frames) && inputs[i].message == PushJson(p)
  {
    FedContains(inputs, i);
    var k :| 0 <= k < |Fed(inputs)| && Fed(inputs)[k] == inputs[i].message;
    FedIsPushed(cfg, parse, frames, received, Fed(inputs), k);
    p := RelayRuns.Pushes(frames)[k];
  }

  predicate IsHarmless(input: Rec.Input) {
    input.Received? ==> Rec.Decode(input.message).EventMsg? || Rec.Decode(input.message).OtherMsg?
  }

  lemma InputIsHarmless(cfg: Rec.Config, parse: string -> Option<Json>, frames: seq<Frame>, received: string,
                        inputs: seq<Rec.Input>, i: nat)
    requires ReadsStream(cfg, parse, frames, received, Fed(inputs)) && Screened(RelayRuns.Pushes(frames))
    requires i < |inputs|
    ensures IsHarmless(inputs[i])
  {
    if inputs[i].Received? {
      var p := InputIsPushed(cfg, parse, frames, received, inputs, i);
      PushIsHarmless(cfg, p);
    }
  }

  lemma InputsAreHarmless(cfg: Rec.Config, parse: string -> Option<Json>, frames: seq<Frame>, received: string,
                          inputs: seq<Rec.Input>)
    requires ReadsStream(cfg, parse, frames, received, Fed(inputs)) && Screened(RelayRuns.Pushes(frames))
    ensures forall i :: 0 <= i < |inputs| ==> IsHarmless(inputs[i])
  {
    forall i | 0 <= i < |inputs|
      ensures IsHarmless(inputs[i])
    {
      InputIsHarmless(cfg, parse, frames, received, inputs, i);
    }
  }

  lemma ScreenedPushes(s: State, c: ClientId)
    requires RelayRuns.Inv(s) && Screened(s.broadcasts) && c in s.feeds
    ensures Screened(RelayRuns.Pushes(s.feeds[c].frames))
  {
    forall p | p in RelayRuns.Pushes(s.feeds[c].frames) && p.Forwarded?
      ensures Classify(p.message).EventOrLog?
    {
      PushesAreBroadcasts(s, c, p);
    }
  }

  /** A recorder that reads any client's stream of any relay run writes no status record and no parse
      error: the relay sends status messages, but never one the recorder would take for a status. */
  lemma RecorderWritesNoStatus(states: seq<State>, inputs: seq<Input>, n: nat, c: ClientId,
                               parse: string -> Option<Json>, received: string,
                               cfg: Rec.Config, rstates: seq<Rec.State>, rinputs: seq<Rec.Input>)
    requires RelayRuns.IsRun(states, inputs) && n < |states| && c in states[n].feeds
    requires RecorderRuns.IsRun(cfg, rstates, rinputs)
    requires ReadsStream(cfg, parse, states[n].feeds[c].frames, received, Fed(rinputs))
    ensures NoNoise(rstates[|rinputs|].output)
  {
    RelayRuns.RunInv(states, inputs, n);
    RunScreened(states, inputs, n);
    ScreenedPushes(states[n], c);
    InputsAreHarmless(cfg, parse, states[n].feeds[c].frames, received, rinputs);
    RunNoNoise(cfg, rstates, rinputs, |rinputs|);
  }

  // ---- the extension's events, from the browser to the file ----

  /** A recorder's run at the end of a run of the bridge: it reads some client's stream. */
  ghost predicate Records(worlds: seq<Bridge.World>, acts: seq<Bridge.Action>, c: ClientId,
                          parse: string -> Option<Json>, received: string,
                          cfg: Rec.Config, rstates: seq<Rec.State>, rinputs: seq<Rec.Input>) {
    && Bridge.IsRun(worlds, acts)
    && c in worlds[|acts|].relay.feeds
    && RecorderRuns.IsRun(cfg, rstates, rinputs)
    && ReadsStream(cfg, parse, worlds[|acts|].relay.feeds[c].frames, received, Fed(rinputs))
  }

  lemma SentEventNamesTarget(message: Json)
    requires Bridge.SentEvent(message)
    ensures Classify(message).EventOrLog?
    ensures Rec.Decode(message).EventMsg? ==> Rec.Truthy(Rec.Decode(message).event.targetId)
  {
    var targetId: string, name: string, params: Option<Json> :|
      targetId != "" && (params.Some? ==> IsRecord(params.value)) && message == Bridge.EventJson(targetId, name, params);
    Bridge.EventIsNoReply(targetId, name, params);
    var inner := [Member("targetId", Some(JString(targetId))), Member("method", Some(JString(name))), Member("params", params)];
    var members := [Member("method", Some(JString("forwardCDPEvent"))), Member("params", Some(Object(inner)))];
    ObjectProp(members, 0);
    ObjectProp(members, 1);
    ObjectProp(inner, 0);
    ObjectProp(inner, 1);
    ObjectProp(inner, 2);
  }

  /** What the run of the bridge leaves: the relay's invariant, and what is forwarded was sent. */
  ghost predicate Faithful(w: Bridge.World) {
    && RelayRuns.Inv(w.relay)
    && multiset(RelayRuns.Forwards(w.relay.broadcasts)) <= multiset(w.sent)
    && forall m :: m in w.sent ==> Bridge.SentEvent(m)
  }

  lemma BridgeIsFaithful(worlds: seq<Bridge.World>, acts: seq<Bridge.Action>)
    requires Bridge.IsRun(worlds, acts)
    ensures Faithful(worlds[|acts|]) && Screened(worlds[|acts|].relay.broadcasts)
  {
    var w := worlds[|acts|];
    Bridge.RunInv(worlds, acts, |acts|);
    BridgeAccounts.ForwardedEventsAreSent(worlds, acts, |acts|);
    forall m | m in RelayRuns.Forwards(w.relay.broadcasts)
      ensures Classify(m).EventOrLog?
    {
      assert m in multiset(w.sent);
      SentEventNamesTarget(m);
    }
    ScreenedByForwards(w.relay.broadcasts);
  }

  lemma ForwardWasSent(w: Bridge.World, p: Push)
    requires multiset(RelayRuns.Forwards(w.relay.broadcasts)) <= multiset(w.sent)
    requires p in w.relay.broadcasts && p.Forwarded?
    ensures p.message in w.sent
  {
    var k :| 0 <= k < |w.relay.broadcasts| && w.relay.broadcasts[k] == p;
    RelayRuns.ForwardsContain(w.relay.broadcasts, k);
    assert p.message in multiset(RelayRuns.Forwards(w.relay.broadcasts));
    assert p.message in multiset(w.sent);
  }

  /** Each event a recorder gets out of the stream is an event the extension sent. */
  lemma EventWasSent(w: Bridge.World, c: ClientId, parse: string -> Option<Json>, received: string,
                     cfg: Rec.Config, inputs: seq<Rec.Input>, i: nat)
    requires Faithful(w) && Screened(w.relay.broadcasts) && c in w.relay.feeds
    requires ReadsStream(cfg, parse, w.relay.feeds[c].frames, received, Fed(inputs))
    requires i < |inputs| && inputs[i].Received? && Rec.Decode(inputs[i].message).EventMsg?
    ensures inputs[i].message in w.sent
  {
    ScreenedPushes(w.relay, c);
    var p := InputIsPushed(cfg, parse, w.relay.feeds[c].frames, received, inputs, i);
    if !p.Forwarded? {
      OwnMessageIsIgnored(p);
    } else {
      PushesAreBroadcasts(w.relay, c, p);
      ForwardWasSent(w, p);
    }
  }

  lemma EventNamesTarget(w: Bridge.World, c: ClientId, parse: string -> Option<Json>, received: string,
                         cfg: Rec.Config, inputs: seq<Rec.Input>, i: nat)
    requires Faithful(w) && Screened(w.relay.broadcasts) && c in w.relay.feeds && i < |inputs|
    requires ReadsStream(cfg, parse, w.relay.feeds[c].frames, received, Fed(inputs))
    ensures RecorderFilters.InputFits(RecorderFilters.Exact, inputs[i])
  {
    if inputs[i].Received? && Rec.Decode(inputs[i].message).EventMsg? {
      EventWasSent(w, c, parse, received, cfg, inputs, i);
      SentEventNamesTarget(inputs[i].message);
    }
  }

  /** From the browser to the file, over every run of bridge, relay, reader and recorder: every record a
      recorder of one target writes names that target, with no condition on the events, since the
      extension never sends one without a target. */
  lemma RecorderIsConfined(worlds: seq<Bridge.World>, acts: seq<Bridge.Action>, c: ClientId,
                           parse: string -> Option<Json>, received: string,
                           cfg: Rec.Config, rstates: seq<Rec.State>, rinputs: seq<Rec.Input>)
    requires Records(worlds, acts, c, parse, received, cfg, rstates, rinputs)
    ensures RecorderFilters.Confined(cfg, RecorderFilters.Exact, rstates[|rinputs|])
  {
    BridgeIsFaithful(worlds, acts);
    forall i | 0 <= i < |rinputs|
      ensures RecorderFilters.InputFits(RecorderFilters.Exact, rinputs[i])
    {
      EventNamesTarget(worlds[|acts|], c, parse, received, cfg, rinputs, i);
    }
    RecorderFilters.RunConfined(cfg, RecorderFilters.Exact, rstates, rinputs, |rinputs|);
  }

  /** Every HTTP or WebSocket record in the file is about a request named by an event that the extension
      sent in this run. */
  lemma RecordsComeFromEvents(worlds: seq<Bridge.World>, acts: seq<Bridge.Action>, c: ClientId,
                              parse: string -> Option<Json>, received: string,
                              cfg: Rec.Config, rstates: seq<Rec.State>, rinputs: seq<Rec.Input>, j: nat, id: string)
    returns (event: Json)
    requires Records(worlds, acts, c, parse, received, cfg, rstates, rinputs)
    requires j < |rstates[|rinputs|].output| && RecorderRuns.IsAbout(rstates[|rinputs|].output[j], id)
    ensures event in worlds[|acts|].sent
    ensures Rec.Decode(event).EventMsg? && Rec.Decode(event).event.params.requestId == id
  {
    BridgeIsFaithful(worlds, acts);
    RecorderIndependence.WrittenIsKnown(rstates[|rinputs|].output, j, id);
    var i := RecorderIndependence.NothingIsInvented(cfg, rstates, rinputs, |rinputs|, id);
    event := rinputs[i].message;
    EventWasSent(worlds[|acts|], c, parse, received, cfg, rinputs, i);
  }

  // ---- no event is handed over twice ----

  /** The messages of pushes, as they are printed. */
  function Jsons(pushes: seq<Push>): seq<Json> { Map(PushJson, pushes) }

  lemma {:induction false} JsonsAt(pushes: seq<Push>, i: nat)
    requires i < |pushes|
    ensures |Jsons(pushes)| == |pushes| && Jsons(pushes)[i] == PushJson(pushes[i])
    decreases |pushes|
  {
    var n := |pushes| - 1;
    assert Jsons(pushes) == Jsons(pushes[..n]) + [PushJson(pushes[n])];
    if n > 0 {
      JsonsAt(pushes[..n], if i < n then i else 0);
    }
  }

  lemma {:induction false} ForwardsAreKept(pushes: seq<Push>)
    ensures RelayRuns.Forwards(pushes) == FlatMap(RelayRuns.ForwardOf, pushes)
    decreases |pushes|
  {
    if pushes != [] {
      ForwardsAreKept(pushes[..|pushes| - 1]);
    }
  }

  lemma EventIsForward(p: Push)
    requires Rec.Decode(PushJson(p)).EventMsg?
    ensures RelayRuns.ForwardOf(p) == [PushJson(p)]
  {
    if !p.Forwarded? {
      OwnMessageIsIgnored(p);
    }
  }

  /** Among the messages of pushes, an event is as often as among the messages forwarded. */
  lemma EventsAreForwards(pushes: seq<Push>, m: Json)
    requires Rec.Decode(m).EventMsg?
    ensures multiset(Jsons(pushes))[m] <= multiset(RelayRuns.Forwards(pushes))[m]
  {
    forall p | PushJson(p) == m
      ensures RelayRuns.ForwardOf(p) == [m]
    {
      EventIsForward(p);
    }
    CountKept(PushJson, RelayRuns.ForwardOf, pushes, m);
    ForwardsAreKept(pushes);
  }

  /** A client's forwards are among those of all broadcasts, none more often. */
  lemma FeedForwards(s: State, c: ClientId, k: nat)
    requires RelayRuns.Inv(s) && c in s.feeds && k <= |RelayRuns.Pushes(s.feeds[c].frames)|
    ensures multiset(RelayRuns.Forwards(RelayRuns.Pushes(s.feeds[c].frames)[..k])) <= multiset(RelayRuns.Forwards(s.broadcasts))
  {
    var heard := RelayRuns.Heard(s.feeds[c]);
    assert RelayRuns.FeedMatch(s, c);
    PrefixForwards(RelayRuns.Pushes(s.feeds[c].frames), k);
    HelloIsNoForward(s, c);
    var since := s.broadcasts[s.feeds[c].since..];
    assert heard == since[..|heard|];
    PrefixForwards(since, |heard|);
    SuffixForwards(s.broadcasts, s.feeds[c].since);
  }

  lemma PrefixForwards(pushes: seq<Push>, k: nat)
    requires k <= |pushes|
    ensures multiset(RelayRuns.Forwards(pushes[..k])) <= multiset(RelayRuns.Forwards(pushes))
  {
    RelayRuns.ForwardsConcat(pushes[..k], pushes[k..]);
    assert pushes == pushes[..k] + pushes[k..];
    PartsOf(RelayRuns.Forwards(pushes[..k]), RelayRuns.Forwards(pushes[k..]));
  }

  lemma SuffixForwards(pushes: seq<Push>, k: nat)
    requires k <= |pushes|
    ensures multiset(RelayRuns.Forwards(pushes[k..])) <= multiset(RelayRuns.Forwards(pushes))
  {
    RelayRuns.ForwardsConcat(pushes[..k], pushes[k..]);
    assert pushes == pushes[..k] + pushes[k..];
    PartsOf(RelayRuns.Forwards(pushes[..k]), RelayRuns.Forwards(pushes[k..]));
  }

  lemma HelloIsNoForward(s: State, c: ClientId)
    requires RelayRuns.Inv(s) && c in s.feeds
    ensures RelayRuns.Forwards(RelayRuns.Pushes(s.feeds[c].frames)) == RelayRuns.Forwards(RelayRuns.Heard(s.feeds[c]))
  {
    assert RelayRuns.FeedMatch(s, c);
    if s.feeds[c].greeted {
      GreetedFirst(s, c);
      var b :| RelayRuns.Pushes(s.feeds[c].frames) == [Hello(b)] + RelayRuns.Heard(s.feeds[c]);
      RelayRuns.ForwardsConcat([Hello(b)], RelayRuns.Heard(s.feeds[c]));
      RelayRuns.ForwardsSnoc([], Hello(b));
      assert [] + [Hello(b)] == [Hello(b)];
    }
  }

  /** Over every run of bridge, relay, reader and recorder, an event is handed to the recorder at most as
      often as the extension sent it: nothing on the way duplicates it. */
  lemma EventsAreNotDuplicated(worlds: seq<Bridge.World>, acts: seq<Bridge.Action>, c: ClientId,
                               parse: string -> Option<Json>, received: string,
                               cfg: Rec.Config, rstates: seq<Rec.State>, rinputs: seq<Rec.Input>, m: Json)
    requires Records(worlds, acts, c, parse, received, cfg, rstates, rinputs) && Rec.Decode(m).EventMsg?
    ensures multiset(Fed(rinputs))[m] <= multiset(worlds[|acts|].sent)[m]
  {
    var w, fed := worlds[|acts|], Fed(rinputs);
    var pushes := RelayRuns.Pushes(w.relay.feeds[c].frames);
    BridgeIsFaithful(worlds, acts);
    ScreenedPushes(w.relay, c);
    FedIsPrefix(cfg, parse, w.relay.feeds[c].frames, received, fed);
    EventsAreForwards(pushes[..|fed|], m);
    FeedForwards(w.relay, c, |fed|);
    assert multiset(RelayRuns.Forwards(pushes[..|fed|]))[m] <= multiset(RelayRuns.Forwards(w.relay.broadcasts))[m];
  }

  lemma FedIsPrefix(cfg: Rec.Config, parse: string -> Option<Json>, frames: seq<Frame>, received: string, fed: seq<Json>)
    requires ReadsStream(cfg, parse, frames, received, fed) && Screened(RelayRuns.Pushes(frames))
    ensures |fed| <= |RelayRuns.Pushes(frames)| && fed == Jsons(RelayRuns.Pushes(frames)[..|fed|])
  {
    var pushes := RelayRuns.Pushes(frames);
    if fed != [] {
      FedIsPushed(cfg, parse, frames, received, fed, |fed| - 1);
      JsonsAt(pushes[..|fed|], 0);
    }
    forall i | 0 <= i < |fed|
      ensures fed[i] == Jsons(pushes[..|fed|])[i]
    {
      FedIsPushed(cfg, parse, frames, received, fed, i);
      JsonsAt(pushes[..|fed|], i);
    }
  }

  // ---- what is sent is recorded ----

  /** A request event of an admitted target that the recorder is handed makes a record: live right after, with
      the event's target, URL and verb. */
  lemma SentRequestIsRecorded(cfg: Rec.Config, rstates: seq<Rec.State>, rinputs: seq<Rec.Input>, i: nat,
                              targetId: string, params: Json, id: string, url: string, verb: string)
    requires RecorderRuns.IsRun(cfg, rstates, rinputs) && i < |rinputs|
    requires rinputs[i] == Rec.Received(Bridge.EventJson(targetId, "Network.requestWillBeSent", Some(params)))
    requires cfg.includeHttp && (cfg.allTargets || targetId == cfg.targetId)
    requires Prop(params, "requestId") == Some(JString(id)) && id != ""
    requires Prop(params, "request").Some? && Prop(Prop(params, "request").value, "url") == Some(JString(url))
    requires Prop(Prop(params, "request").value, "method") == Some(JString(verb))
    requires cfg.httpOnly ==> StartsWith(url, "http://") || StartsWith(url, "https://")
    ensures id in rstates[i + 1].httpRecords.vals
    ensures var rec := rstates[i + 1].httpRecords.vals[id];
            rec.targetId == Some(targetId) && rec.requestId == id && rec.url == url && rec.verb == verb &&
            rec.serial == rstates[i].created && rec.error == None && rec.response == None
  {
    var message := Bridge.EventJson(targetId, "Network.requestWillBeSent", Some(params));
    assert rstates[i + 1] == Rec.OnMsg(cfg, rstates[i], message);
    EventReading.EventIsRead(targetId, "Network.requestWillBeSent", Some(params));
    EventReading.ParamsAreRead(params);
    RecorderEffects.RequestMakesRecord(cfg, rstates[i], message);
  }

  /** A recorder that has read all of its client's stream was handed all that was forwarded since the client
      joined, as long as the client was live. */
  lemma LiveRecorderMissesNothing(worlds: seq<Bridge.World>, acts: seq<Bridge.Action>, c: ClientId,
                                  parse: string -> Option<Json>, received: string,
                                  cfg: Rec.Config, rstates: seq<Rec.State>, rinputs: seq<Rec.Input>, m: Json)
    requires Records(worlds, acts, c, parse, received, cfg, rstates, rinputs)
    requires received == StreamText(worlds[|acts|].relay.feeds[c].frames)
    requires |Fed(rinputs)| == |Calls(RecorderSink(cfg, parse), Texts(received))|
    requires c in worlds[|acts|].relay.sseClients
    requires worlds[|acts|].relay.feeds[c].since <= |worlds[|acts|].relay.broadcasts|
    requires m in RelayRuns.Forwards(worlds[|acts|].relay.broadcasts[worlds[|acts|].relay.feeds[c].since..])
    ensures exists i :: 0 <= i < |rinputs| && rinputs[i] == Rec.Received(m)
  {
    var w := worlds[|acts|];
    BridgeIsFaithful(worlds, acts);
    ScreenedPushes(w.relay, c);
    WholeStreamIsHanded(cfg, parse, w.relay.feeds[c].frames, received, Fed(rinputs));
    ForwardIsHanded(w.relay, c, m);
    FedComesFrom(rinputs, m);
  }

  lemma WholeStreamIsHanded(cfg: Rec.Config, parse: string -> Option<Json>, frames: seq<Frame>, received: string, fed: seq<Json>)
    requires ReadsStream(cfg, parse, frames, received, fed) && Screened(RelayRuns.Pushes(frames))
    requires received == StreamText(frames) && |fed| == |Calls(RecorderSink(cfg, parse), Texts(received))|
    ensures fed == Jsons(RelayRuns.Pushes(frames))
  {
    var sink, pushes := RecorderSink(cfg, parse), RelayRuns.Pushes(frames);
    forall q | q in pushes
      ensures !sink.throws(PushJson(q))
    {
      PushIsHarmless(cfg, q);
    }
    assert Flatten([received]) == received + Flatten([]);
    ReadsBack(sink, frames, [received]);
    FedIsPrefix(cfg, parse, frames, received, fed);
    assert pushes[..|fed|] == pushes;
  }

  lemma ForwardIsHanded(s: State, c: ClientId, m: Json)
    requires RelayRuns.Inv(s) && c in s.sseClients && c in s.feeds && s.feeds[c].since <= |s.broadcasts|
    requires m in RelayRuns.Forwards(s.broadcasts[s.feeds[c].since..])
    ensures m in Jsons(RelayRuns.Pushes(s.feeds[c].frames))
  {
    assert RelayRuns.FeedMatch(s, c);
    HelloIsNoForward(s, c);
    ForwardsAreJsons(RelayRuns.Pushes(s.feeds[c].frames));
  }

  lemma {:induction false} ForwardsAreJsons(pushes: seq<Push>)
    ensures forall m :: m in RelayRuns.Forwards(pushes) ==> m in Jsons(pushes)
    decreases |pushes|
  {
    if pushes != [] {
      ForwardsAreJsons(pushes[..|pushes| - 1]);
    }
  }

  lemma {:induction false} FedComesFrom(inputs: seq<Rec.Input>, m: Json)
    requires m in Fed(inputs)
    ensures exists i :: 0 <= i < |inputs| && inputs[i] == Rec.Received(m)
    decreases |inputs|
  {
    var n := |inputs| - 1;
    if inputs[n] == Rec.Received(m) {
    } else {
      FedComesFrom(inputs[..n], m);
      var i :| 0 <= i < n && inputs[..n][i] == Rec.Received(m);
      assert inputs[i] == Rec.Received(m);
    }
  }

  /** So a request event of an admitted target that is forwarded while the recorder's client is live makes a
      record, once the recorder has read its stream. */
  lemma ForwardedRequestIsRecorded(worlds: seq<Bridge.World>, acts: seq<Bridge.Action>, c: ClientId,
                                   parse: string -> Option<Json>, received: string,
                                   cfg: Rec.Config, rstates: seq<Rec.State>, rinputs: seq<Rec.Input>,
                                   targetId: string, params: Json, id: string, url: string, verb: string) returns (i: nat)
    requires Records(worlds, acts, c, parse, received, cfg, rstates, rinputs)
    requires received == StreamText(worlds[|acts|].relay.feeds[c].frames)
    requires |Fed(rinputs)| == |Calls(RecorderSink(cfg, parse), Texts(received))|
    requires c in worlds[|acts|].relay.sseClients
    requires worlds[|acts|].relay.feeds[c].since <= |worlds[|acts|].relay.broadcasts|
    requires Bridge.EventJson(targetId, "Network.requestWillBeSent", Some(params)) in
               RelayRuns.Forwards(worlds[|acts|].relay.broadcasts[worlds[|acts|].relay.feeds[c].since..])
    requires cfg.includeHttp && (cfg.allTargets || targetId == cfg.targetId)
    requires Prop(params, "requestId") == Some(JString(id)) && id != ""
    requires Prop(params, "request").Some? && Prop(Prop(params, "request").value, "url") == Some(JString(url))
    requires Prop(Prop(params, "request").value, "method") == Some(JString(verb))
    requires cfg.httpOnly ==> StartsWith(url, "http://") || StartsWith(url, "https://")
    ensures i < |rinputs| && id in rstates[i + 1].httpRecords.vals
    ensures var rec := rstates[i + 1].httpRecords.vals[id];
            rec.targetId == Some(targetId) && rec.url == url && rec.verb == verb
  {
    var m := Bridge.EventJson(targetId, "Network.requestWillBeSent", Some(params));
    LiveRecorderMissesNothing(worlds, acts, c, parse, received, cfg, rstates, rinputs, m);
    i :| 0 <= i < |rinputs| && rinputs[i] == Rec.Received(m);
    SentRequestIsRecorded(cfg, rstates, rinputs, i, targetId, params, id, url, verb);
  }
}
