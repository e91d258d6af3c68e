/** What holds in every state the relay can reach, under every interleaving of its inputs. */
module RelayRuns {
  import opened Prelude
  import opened Json
  import opened Messages
  import opened RelayState

  // ---- the invariant ----

  /** Ids are drawn in order, and none is pending that was not drawn. */
  ghost predicate Numbered(s: State) {
    && s.nextId == |s.issues| + 1
    && (forall i :: 0 <= i < |s.issues| ==> s.issues[i].command.id == i + 1)
    && (forall id :: id in s.pending ==> 1 <= id < s.nextId)
  }

  /** The armed timers are exactly the pending ids', one each. */
  ghost predicate TimersMatch(s: State) {
    && (forall id :: id in s.pending ==> s.pending[id] in s.timers && s.timers[s.pending[id]].id == id)
    && (forall t :: t in s.timers ==> t < s.nextTimer && s.timers[t].id in s.pending && s.pending[s.timers[t].id] == t)
  }

  /** A pending request was never resolved, any other exactly once, and with its own id. */
  ghost predicate SettledOnce(s: State) {
    forall i :: 0 <= i < |s.issues| ==>
      && |s.issues[i].resolutions| == (if i + 1 in s.pending then 0 else 1)
      && forall r :: r in s.issues[i].resolutions ==> r.response.id == i + 1
  }

  /** Without an extension nothing is pending and nothing is pinged; with one, exactly one interval
      is live, and it pings that socket. */
  ghost predicate SocketMatch(s: State) {
    && (s.extension.None? ==> s.pending == map[])
    && KeepaliveMatch(s)
  }

  ghost predicate KeepaliveMatch(s: State) {
    && (s.keepalive.Some? ==> s.keepalive.value < s.nextInterval)
    && s.keepalive.Some? == s.extension.Some?
    && s.intervals == if s.extension.Some? then map[s.keepalive.value := s.extension.value] else map[]
  }

  function Pushes(frames: seq<Frame>): seq<Push> {
    if frames == [] then []
    else
      var before, last := frames[..|frames| - 1], frames[|frames| - 1];
      Pushes(before) + (if last.Data? then [last.push] else [])
  }

  /** The broadcasts among a client's frames: all its pushes but the hello. */
  function Heard(feed: Feed): seq<Push> {
    var all := Pushes(feed.frames);
    if feed.greeted && all != [] then all[1..] else all
  }

  /** A live client heard exactly the broadcasts made since it joined; a dropped one, a prefix of them. */
  ghost predicate FeedMatch(s: State, c: ClientId)
    requires c in s.feeds
  {
    var feed := s.feeds[c];
    && feed.since <= |s.broadcasts|
    && (feed.greeted ==> Pushes(feed.frames) != [] && Pushes(feed.frames)[0].Hello?)
    && Heard(feed) <= s.broadcasts[feed.since..]
    && (c in s.sseClients ==> Heard(feed) == s.broadcasts[feed.since..])
  }

  ghost predicate FeedsMatch(s: State) {
    && s.sseClients <= s.feeds.Keys
    && forall c :: c in s.feeds ==> FeedMatch(s, c)
  }

  ghost predicate Core(s: State) { Numbered(s) && TimersMatch(s) && SettledOnce(s) }

  ghost predicate Inv(s: State) { Core(s) && SocketMatch(s) && FeedsMatch(s) }

  // ---- every block keeps it ----

  lemma RespondCore(s: State, id: nat, origin: Origin, response: Response)
    requires Core(s) && response.id == id
    ensures Core(Respond(s, id, origin, response))
  {
  }

  lemma FailAllCore(s: State, origin: Origin, info: ErrorInfo)
    requires Core(s)
    ensures Core(FailAll(s, origin, info))
    ensures FailAll(s, origin, info).timers == map[]
  {
    forall t | t in s.timers
      ensures t in s.pending.Values
    {
      assert s.pending[s.timers[t].id] == t;
    }
  }

  lemma SentCore(s: State, kind: string, params: Json, wait: Wait, open: set<SocketId>)
    requires Core(s)
    ensures Core(IssueCommand(s, kind, params, wait, open, Sent))
  {
    SentTimers(s, kind, params, wait, open);
    SentSettled(s, kind, params, wait, open);
  }

  lemma SentTimers(s: State, kind: string, params: Json, wait: Wait, open: set<SocketId>)
    requires Numbered(s) && TimersMatch(s)
    ensures var s' := IssueCommand(s, kind, params, wait, open, Sent); Numbered(s') && TimersMatch(s')
  {
  }

  lemma SentSettled(s: State, kind: string, params: Json, wait: Wait, open: set<SocketId>)
    requires Numbered(s) && SettledOnce(s)
    ensures SettledOnce(IssueCommand(s, kind, params, wait, open, Sent))
  {
  }

  lemma IssueCore(s: State, kind: string, params: Json, wait: Wait, open: set<SocketId>, sending: Sending)
    requires Core(s)
    ensures Core(IssueCommand(s, kind, params, wait, open, sending))
  {
    var id, armed := s.nextId, IssueCommand(s, kind, params, wait, open, Sent);
    SentCore(s, kind, params, wait, open);
    if Route(s, open).Some? && sending.Throws? {
      RespondCore(armed, id, SendFailed, ErrorResponse(id, SendFailure(sending.cause)));
    }
  }

  /** What the request gets when this timer fires: its own id, and the time it waited. */
  function TimeoutAnswer(alarm: Alarm): Response { ErrorResponse(alarm.id, TimeoutInfo(alarm.wait)) }

  /** A fired timer is spent before its callback runs, which changes nothing the callback sees. */
  lemma FireIsRespond(s: State, timer: TimerId)
    requires TimersMatch(s) && timer in s.timers
    ensures var id := s.timers[timer].id;
            id in s.pending && FireTimer(s, timer) == Respond(s, id, TimedOut, TimeoutAnswer(s.timers[timer]))
  {
    assert s.timers - {timer} - {timer} == s.timers - {timer};
  }

  lemma PushesSnoc(frames: seq<Frame>, frame: Frame)
    ensures Pushes(frames + [frame]) == Pushes(frames) + (if frame.Data? then [frame.push] else [])
  {
    assert (frames + [frame])[..|frames|] == frames;
  }

  lemma BroadcastFeeds(s: State, push: Push, broken: set<ClientId>)
    requires FeedsMatch(s)
    ensures FeedsMatch(Broadcast(s, push, broken))
  {
    var s' := Broadcast(s, push, broken);
    forall c | c in s'.feeds
      ensures FeedMatch(s', c)
    {
      BroadcastFeed(s, push, broken, c);
    }
  }

  lemma BroadcastFeed(s: State, push: Push, broken: set<ClientId>, c: ClientId)
    requires c in s.feeds && FeedMatch(s, c)
    ensures FeedMatch(Broadcast(s, push, broken), c)
  {
    var since := s.feeds[c].since;
    PushesSnoc(s.feeds[c].frames, Data(push));
    assert (s.broadcasts + [push])[since..] == s.broadcasts[since..] + [push];
  }

  lemma TickFeeds(s: State, c: ClientId, enqueued: bool)
    requires FeedsMatch(s) && c in s.feeds
    ensures FeedsMatch(KeepaliveTick(s, c, enqueued))
  {
    var s' := KeepaliveTick(s, c, enqueued);
    PushesSnoc(s.feeds[c].frames, Comment);
    forall d | d in s'.feeds
      ensures FeedMatch(s', d)
    {
      assert FeedMatch(s, d);
    }
  }

  lemma SubscribeFeeds(s: State, c: ClientId, open: set<SocketId>, greeted: bool, aborted: bool)
    requires FeedsMatch(s) && c !in s.feeds
    ensures FeedsMatch(Subscribe(s, c, open, greeted, aborted))
  {
    var s' := Subscribe(s, c, open, greeted, aborted);
    forall d | d in s'.feeds
      ensures FeedMatch(s', d)
    {
      if d == c {
        PushesSnoc([], Data(Hello(Route(s, open).Some?)));
        assert s.broadcasts[|s.broadcasts|..] == [];
        assert [] + [Data(Hello(Route(s, open).Some?))] == [Data(Hello(Route(s, open).Some?))];
      } else {
        assert FeedMatch(s, d);
      }
    }
  }

  lemma CloseInv(s: State, ws: SocketId, why: CloseEvent, broken: set<ClientId>)
    requires Inv(s)
    ensures Inv(CloseSocket(s, ws, why, broken))
    ensures s.extension == Some(ws) ==> CloseSocket(s, ws, why, broken).pending == map[]
  {
    if s.extension == Some(ws) {
      var stopped := StopKeepalive(s.(extension := None));
      var failed := FailAll(stopped, Disconnected, Disconnection(why));
      assert stopped.intervals == map[];
      FailAllCore(stopped, Disconnected, Disconnection(why));
      SameFeeds(s, failed);
      BroadcastFeeds(failed, Status(false), broken);
      BroadcastCore(failed, Status(false), broken);
    }
  }

  lemma BroadcastCore(s: State, push: Push, broken: set<ClientId>)
    requires Core(s) && SocketMatch(s)
    ensures Core(Broadcast(s, push, broken)) && SocketMatch(Broadcast(s, push, broken))
  {
  }

  lemma AdoptInv(s: State, ws: SocketId, broken: set<ClientId>)
    requires Inv(s)
    ensures Inv(Broadcast(StartKeepalive(s.(extension := Some(ws)), ws), Status(true), broken))
  {
    var started := StartKeepalive(s.(extension := Some(ws)), ws);
    assert StopKeepalive(s).intervals == map[];
    SameFeeds(s, started);
    BroadcastFeeds(started, Status(true), broken);
  }

  lemma FailAllInv(s: State, origin: Origin, info: ErrorInfo)
    requires Inv(s)
    ensures Inv(FailAll(s, origin, info))
  {
    FailAllCore(s, origin, info);
    var s' := FailAll(s, origin, info);
    forall c | c in s'.feeds ensures FeedMatch(s', c) { assert FeedMatch(s, c); }
  }

  lemma OpenInv(s: State, ws: SocketId, open: set<SocketId>, eviction: Eviction, broken: set<ClientId>)
    requires Inv(s)
    ensures Inv(OpenSocket(s, ws, open, eviction, broken))
  {
    if Route(s, open).None? {
      AdoptInv(s, ws, broken);
    } else {
      var failed := FailAll(s, Replaced, RECONNECTED);
      FailAllInv(s, Replaced, RECONNECTED);
      if eviction.Quiet? {
        AdoptInv(failed, ws, broken);
      } else {
        CloseInv(failed, s.extension.value, EVICTED, eviction.broken);
        AdoptInv(CloseSocket(failed, s.extension.value, EVICTED, eviction.broken), ws, broken);
      }
    }
  }

  /** A block that leaves the clients and their history alone keeps their part of the invariant. */
  lemma SameFeeds(s: State, s': State)
    requires FeedsMatch(s)
    requires s'.sseClients <= s.sseClients && s'.broadcasts == s.broadcasts && s'.feeds == s.feeds
    ensures FeedsMatch(s')
  {
    forall c | c in s'.feeds ensures FeedMatch(s', c) { assert FeedMatch(s, c); }
  }

  lemma IssueInv(s: State, kind: string, params: Json, wait: Wait, open: set<SocketId>, sending: Sending)
    requires Inv(s)
    ensures Inv(IssueCommand(s, kind, params, wait, open, sending))
  {
    IssueCore(s, kind, params, wait, open, sending);
    SameFeeds(s, IssueCommand(s, kind, params, wait, open, sending));
  }

  lemma TimeoutInv(s: State, timer: TimerId)
    requires Inv(s) && timer in s.timers
    ensures Inv(FireTimer(s, timer))
  {
    FireIsRespond(s, timer);
    RespondCore(s, s.timers[timer].id, TimedOut, TimeoutAnswer(s.timers[timer]));
    SameFeeds(s, FireTimer(s, timer));
  }

  lemma SubscribeInv(s: State, c: ClientId, open: set<SocketId>, greeted: bool, aborted: bool)
    requires Inv(s) && c !in s.feeds
    ensures Inv(Subscribe(s, c, open, greeted, aborted))
  {
    SubscribeFeeds(s, c, open, greeted, aborted);
  }

  lemma TickInv(s: State, c: ClientId, enqueued: bool)
    requires Inv(s) && c in s.feeds
    ensures Inv(KeepaliveTick(s, c, enqueued))
  {
    TickFeeds(s, c, enqueued);
  }

  lemma UnsubscribeInv(s: State, c: ClientId)
    requires Inv(s)
    ensures Inv(Unsubscribe(s, c))
  {
    SameFeeds(s, Unsubscribe(s, c));
  }

  lemma GarbageInv(s: State, text: string, cause: string, broken: set<ClientId>)
    requires Inv(s)
    ensures Inv(ReceiveGarbage(s, text, cause, broken))
  {
    BroadcastFeeds(s, BadMessage(text, BadMessageInfo(text, cause)), broken);
  }

  lemma ReceiveInv(s: State, ws: SocketId, message: Json, broken: set<ClientId>)
    requires Inv(s)
    ensures Inv(ReceiveJson(s, ws, message, broken))
  {
    match Classify(message)
    case Reply(response) =>
      if response.id >= 0 && response.id in s.pending {
        RespondCore(s, response.id, Replied(ws), response);
        SameFeeds(s, ReceiveJson(s, ws, message, broken));
      } else {
        BroadcastFeeds(s, Orphan(message), broken);
      }
    case EventOrLog => BroadcastFeeds(s, Forwarded(message), broken);
    case Unknown => BroadcastFeeds(s, UnknownMessage(message), broken);
  }

  lemma StepInv(s: State, input: Input)
    requires Inv(s) && Enabled(s, input)
    ensures Inv(Step(s, input))
  {
    match input
    case Request(kind, params, wait, open, sending) => IssueInv(s, kind, params, wait, open, sending);
    case Timeout(timer) => TimeoutInv(s, timer);
    case Opened(ws, open, eviction, broken) => OpenInv(s, ws, open, eviction, broken);
    case Closed(ws, why, broken) => CloseInv(s, ws, why, broken);
    case Received(ws, message, broken) => ReceiveInv(s, ws, message, broken);
    case ReceivedGarbage(text, cause, broken) => GarbageInv(s, text, cause, broken);
    case Subscribed(client, open, greeted, aborted) => SubscribeInv(s, client, open, greeted, aborted);
    case Ticked(client, enqueued) => TickInv(s, client, enqueued);
    case Unsubscribed(client) => UnsubscribeInv(s, client);
  }

  // ---- runs ----

  /** `states` is what the relay goes through on `inputs`, from its initial state. */
  ghost predicate IsRun(states: seq<State>, inputs: seq<Input>) {
    && |states| == |inputs| + 1
    && states[0] == INIT
    && forall i {:trigger inputs[i]} :: 0 <= i < |inputs| ==>
         Enabled(states[i], inputs[i]) && states[i + 1] == Step(states[i], inputs[i])
  }

  lemma {:induction false} RunInv(states: seq<State>, inputs: seq<Input>, n: nat)
    requires IsRun(states, inputs) && n < |states|
    ensures Inv(states[n])
  {
    if n > 0 {
      RunInv(states, inputs, n - 1);
      StepInv(states[n - 1], inputs[n - 1]);
    }
  }

  // ---- exactly-once settlement ----

  /** In every reachable state the drawn ids split into pending ones, never resolved, and settled
      ones, resolved exactly once with an answer that bears their id. */
  lemma SettlesExactlyOnce(states: seq<State>, inputs: seq<Input>, n: nat, id: nat)
    requires IsRun(states, inputs) && n < |states| && 1 <= id < states[n].nextId
    ensures id - 1 < |states[n].issues| && states[n].issues[id - 1].command.id == id
    ensures var rs := states[n].issues[id - 1].resolutions;
            if id in states[n].pending then rs == [] else |rs| == 1 && rs[0].response.id == id
  {
    RunInv(states, inputs, n);
    var rs := states[n].issues[id - 1].resolutions;
    assert rs != [] ==> rs[0] in rs;
  }

  /** What a step may do to the history: add commands, and settle pending ones. */
  ghost predicate Extends(s: State, s': State) {
    && |s.issues| <= |s'.issues|
    && forall i :: 0 <= i < |s.issues| ==>
         && s'.issues[i].command == s.issues[i].command && s'.issues[i].wait == s.issues[i].wait
         && (i + 1 !in s.pending ==> s'.issues[i].resolutions == s.issues[i].resolutions && i + 1 !in s'.pending)
  }

  lemma RespondExtends(s: State, id: nat, origin: Origin, response: Response)
    requires Core(s)
    ensures Extends(s, Respond(s, id, origin, response))
  {
  }

  lemma FailAllExtends(s: State, origin: Origin, info: ErrorInfo)
    requires Core(s)
    ensures Extends(s, FailAll(s, origin, info))
  {
  }

  lemma ExtendsTrans(a: State, b: State, c: State)
    requires Extends(a, b) && Extends(b, c)
    ensures Extends(a, c)
  {
  }

  lemma CloseExtends(s: State, ws: SocketId, why: CloseEvent, broken: set<ClientId>)
    requires Core(s)
    ensures Extends(s, CloseSocket(s, ws, why, broken))
  {
    if s.extension == Some(ws) {
      FailAllExtends(s, Disconnected, Disconnection(why));
      assert CloseSocket(s, ws, why, broken).issues == FailAll(s, Disconnected, Disconnection(why)).issues;
    }
  }

  lemma OpenExtends(s: State, ws: SocketId, open: set<SocketId>, eviction: Eviction, broken: set<ClientId>)
    requires Core(s)
    ensures Extends(s, OpenSocket(s, ws, open, eviction, broken))
  {
    if Route(s, open).Some? {
      var failed := FailAll(s, Replaced, RECONNECTED);
      FailAllExtends(s, Replaced, RECONNECTED);
      if eviction.Nested? {
        FailAllCore(s, Replaced, RECONNECTED);
        CloseExtends(failed, s.extension.value, EVICTED, eviction.broken);
        ExtendsTrans(s, failed, CloseSocket(failed, s.extension.value, EVICTED, eviction.broken));
      }
    }
  }

  lemma ReceiveExtends(s: State, ws: SocketId, message: Json, broken: set<ClientId>)
    requires Core(s)
    ensures Extends(s, ReceiveJson(s, ws, message, broken))
  {
    if IsResponse(message) && DecodeResponse(message).id >= 0 {
      RespondExtends(s, DecodeResponse(message).id, Replied(ws), DecodeResponse(message));
    }
  }

  lemma IssueExtends(s: State, kind: string, params: Json, wait: Wait, open: set<SocketId>, sending: Sending)
    requires Core(s)
    ensures Extends(s, IssueCommand(s, kind, params, wait, open, sending))
  {
  }

  lemma StepExtends(s: State, input: Input)
    requires Inv(s) && Enabled(s, input)
    ensures Extends(s, Step(s, input))
  {
    match input
    case Timeout(timer) =>
      FireIsRespond(s, timer);
      RespondExtends(s, s.timers[timer].id, TimedOut, TimeoutAnswer(s.timers[timer]));
    case Opened(ws, open, eviction, broken) => OpenExtends(s, ws, open, eviction, broken);
    case Closed(ws, why, broken) => CloseExtends(s, ws, why, broken);
    case Received(ws, message, broken) => ReceiveExtends(s, ws, message, broken);
    case Request(kind, params, wait, open, sending) => IssueExtends(s, kind, params, wait, open, sending);
    case ReceivedGarbage(_, _, _) =>
    case Subscribed(_, _, _, _) =>
    case Ticked(_, _) =>
    case Unsubscribed(_) =>
  }

  lemma NextExtends(states: seq<State>, inputs: seq<Input>, n: nat)
    requires IsRun(states, inputs) && n < |inputs|
    ensures Extends(states[n], states[n + 1])
  {
    RunInv(states, inputs, n);
    StepExtends(states[n], inputs[n]);
  }

  /** A settled request stays settled, with the same answer, for the rest of the run. */
  lemma {:induction false} SettlementIsFinal(states: seq<State>, inputs: seq<Input>, n: nat, m: nat)
    requires IsRun(states, inputs) && n <= m < |states|
    ensures Extends(states[n], states[m])
    decreases m
  {
    if n < m {
      SettlementIsFinal(states, inputs, n, m - 1);
      NextExtends(states, inputs, m - 1);
      ExtendsTrans(states[n], states[m - 1], states[m]);
    }
  }

  /** What a step settles a pending request with, if it settles it at all. */
  function CauseOf(s: State, input: Input, id: nat): Option<Resolution> {
    match input
    case Timeout(timer) =>
      if timer in s.timers && s.timers[timer].id == id
      then Some(Resolution(TimedOut, TimeoutAnswer(s.timers[timer]))) else None
    case Closed(ws, why, _) =>
      if s.extension == Some(ws)
      then Some(Resolution(Disconnected, ErrorResponse(id, Disconnection(why)))) else None
    case Opened(_, open, _, _) =>
      if s.extension.Some? && s.extension.value in open
      then Some(Resolution(Replaced, ErrorResponse(id, RECONNECTED))) else None
    case Received(ws, message, _) =>
      if IsResponse(message) && DecodeResponse(message).id == id
      then Some(Resolution(Replied(ws), DecodeResponse(message))) else None
    case _ => None
  }

  /** The request was settled by this cause alone, or is still pending if there is none. */
  ghost predicate SettledBy(s': State, id: nat, cause: Option<Resolution>) {
    if cause.None? then id in s'.pending
    else id !in s'.pending && 1 <= id <= |s'.issues| && s'.issues[id - 1].resolutions == [cause.value]
  }

  lemma RespondSettles(s: State, id: nat, other: nat, origin: Origin, response: Response)
    requires Core(s) && id in s.pending
    ensures SettledBy(Respond(s, other, origin, response), id,
                      if other == id then Some(Resolution(origin, response)) else None)
  {
    assert s.issues[id - 1].resolutions == [];
  }

  lemma FailAllSettles(s: State, id: nat, origin: Origin, info: ErrorInfo)
    requires Core(s) && id in s.pending
    ensures SettledBy(FailAll(s, origin, info), id, Some(Resolution(origin, ErrorResponse(id, info))))
  {
    assert s.issues[id - 1].resolutions == [];
  }

  lemma CloseSettles(s: State, ws: SocketId, why: CloseEvent, broken: set<ClientId>, id: nat)
    requires Core(s) && id in s.pending
    ensures SettledBy(CloseSocket(s, ws, why, broken), id, CauseOf(s, Closed(ws, why, broken), id))
  {
    if s.extension == Some(ws) {
      FailAllSettles(StopKeepalive(s.(extension := None)), id, Disconnected, Disconnection(why));
    }
  }

  lemma OpenSettles(s: State, ws: SocketId, open: set<SocketId>, eviction: Eviction, broken: set<ClientId>, id: nat)
    requires Core(s) && id in s.pending
    ensures SettledBy(OpenSocket(s, ws, open, eviction, broken), id, CauseOf(s, Opened(ws, open, eviction, broken), id))
  {
    if Route(s, open).Some? {
      var failed := FailAll(s, Replaced, RECONNECTED);
      FailAllCore(s, Replaced, RECONNECTED);
      FailAllSettles(s, id, Replaced, RECONNECTED);
      if eviction.Nested? {
        CloseExtends(failed, s.extension.value, EVICTED, eviction.broken);
      }
    }
  }

  lemma ReceiveSettles(s: State, ws: SocketId, message: Json, broken: set<ClientId>, id: nat)
    requires Core(s) && id in s.pending
    ensures SettledBy(ReceiveJson(s, ws, message, broken), id, CauseOf(s, Received(ws, message, broken), id))
  {
    if IsResponse(message) && DecodeResponse(message).id >= 0 {
      RespondSettles(s, id, DecodeResponse(message).id, Replied(ws), DecodeResponse(message));
    }
  }

  lemma TimeoutSettles(s: State, timer: TimerId, id: nat)
    requires Core(s) && timer in s.timers && id in s.pending
    ensures SettledBy(FireTimer(s, timer), id, CauseOf(s, Timeout(timer), id))
  {
    FireIsRespond(s, timer);
    RespondSettles(s, id, s.timers[timer].id, TimedOut, TimeoutAnswer(s.timers[timer]));
  }

  lemma IssueSettles(s: State, input: Input, id: nat)
    requires Core(s) && id in s.pending && input.Request?
    ensures SettledBy(Step(s, input), id, None)
  {
    assert id < s.nextId;
  }

  /** Whichever comes first settles the request, and with its own answer: the request's timer, a reply
      with its id on any socket, the close of the current socket, or a new socket replacing an open one.
      Nothing else does. */
  lemma FirstCauseSettles(s: State, input: Input, id: nat)
    requires Inv(s) && Enabled(s, input) && id in s.pending
    ensures SettledBy(Step(s, input), id, CauseOf(s, input, id))
  {
    match input
    case Opened(ws, open, eviction, broken) => OpenSettles(s, ws, open, eviction, broken, id);
    case Timeout(timer) => TimeoutSettles(s, timer, id);
    case Closed(ws, why, broken) => CloseSettles(s, ws, why, broken, id);
    case Received(ws, message, broken) => ReceiveSettles(s, ws, message, broken, id);
    case Request(_, _, _, _, _) => IssueSettles(s, input, id);
    case ReceivedGarbage(_, _, _) =>
    case Subscribed(_, _, _, _) =>
    case Ticked(_, _) =>
    case Unsubscribed(_) =>
  }

  /** A new request gets the next id. It waits with an armed timer if it went out on an open socket,
      and is settled on the spot otherwise. */
  lemma NewRequest(s: State, kind: string, params: Json, wait: Wait, open: set<SocketId>, sending: Sending)
    requires Inv(s)
    ensures var (s', id) := (IssueCommand(s, kind, params, wait, open, sending), s.nextId);
            && |s'.issues| == id && s'.issues[id - 1].command == Command(id, kind, params) && s'.issues[id - 1].wait == wait
            && (id in s'.pending <==> s.extension.Some? && s.extension.value in open && sending.Sent?)
            && (id in s'.pending ==> s'.pending[id] !in s.timers && s'.timers == s.timers[s'.pending[id] := Alarm(id, wait)])
            && (id !in s'.pending ==> s'.timers == s.timers && s'.pending == s.pending)
            && s'.issues[id - 1].resolutions ==
                 if s.extension.None? || s.extension.value !in open
                 then [Resolution(NotConnected, ErrorResponse(id, NOT_CONNECTED))]
                 else if sending.Sent? then []
                 else [Resolution(SendFailed, ErrorResponse(id, SendFailure(sending.cause)))]
  {
    assert s.nextTimer !in s.timers;
    var s' := IssueCommand(s, kind, params, wait, open, sending);
    assert s.timers[s.nextTimer := Alarm(s.nextId, wait)] - {s.nextTimer} == s.timers;
    assert s.pending[s.nextId := s.nextTimer] - {s.nextId} == s.pending;
  }

  // ---- drain ----

  /** The given timers fire in this order; one that was cleared meanwhile does not fire. */
  function FireAll(s: State, ts: seq<TimerId>): State
    decreases |ts|
  {
    if ts == [] then s else FireAll(if ts[0] in s.timers then FireTimer(s, ts[0]) else s, ts[1..])
  }

  /** Every pending request was settled as a timeout of its own length, and no other was touched. */
  ghost predicate Drained(s: State, s': State)
    requires Core(s)
  {
    && s'.pending == map[] && s'.timers == map[] && |s'.issues| == |s.issues|
    && forall i :: 0 <= i < |s.issues| ==>
         s'.issues[i] ==
         if i + 1 in s.pending
         then s.issues[i].(resolutions := [Resolution(TimedOut, TimeoutAnswer(s.timers[s.pending[i + 1]]))])
         else s.issues[i]
  }

  /** Firing the armed timers in any order settles every pending request, each as a timeout of its
      own length, in as many steps as there are pending requests, and touches no other request. */
  lemma {:induction false} Drain(s: State, ts: seq<TimerId>)
    requires Core(s) && NoDup(ts) && forall t :: t in ts <==> t in s.timers
    ensures |ts| == |s.pending|
    ensures Drained(s, FireAll(s, ts))
    decreases |ts|
  {
    if ts == [] {
      assert s.timers == map[];
      assert s.pending == map[];
    } else {
      assert ts[0] in ts;
      var next := FireTimer(s, ts[0]);
      DrainOne(s, ts[0]);
      assert forall u :: u in ts[1..] <==> u in next.timers;
      Drain(next, ts[1..]);
      DrainedStep(s, ts[0], FireAll(next, ts[1..]));
    }
  }

  lemma DrainedStep(s: State, t: TimerId, s': State)
    requires Core(s) && t in s.timers && Core(FireTimer(s, t)) && Drained(FireTimer(s, t), s')
    ensures Drained(s, s')
  {
    DrainOne(s, t);
  }

  lemma DrainOne(s: State, t: TimerId)
    requires Core(s) && t in s.timers
    ensures var id, next := s.timers[t].id, FireTimer(s, t);
            && Core(next) && next.timers == s.timers - {t} && id in s.pending && next.pending == s.pending - {id}
            && |next.pending| == |s.pending| - 1 && |next.issues| == |s.issues|
            && forall i :: 0 <= i < |s.issues| ==>
                 next.issues[i] ==
                 if i + 1 == id
                 then s.issues[i].(resolutions := [Resolution(TimedOut, TimeoutAnswer(s.timers[t]))])
                 else s.issues[i]
  {
    var id, next := s.timers[t].id, FireTimer(s, t);
    FireIsRespond(s, t);
    RespondCore(s, id, TimedOut, TimeoutAnswer(s.timers[t]));
    OneFewer(s.pending, id);
    assert s.issues[id - 1].resolutions == [];
  }

  lemma OneFewer(pending: map<nat, TimerId>, id: nat)
    requires id in pending
    ensures |pending - {id}| == |pending| - 1
  {
    assert (pending - {id}).Keys == pending.Keys - {id};
    assert |pending - {id}| == |(pending - {id}).Keys| && |pending| == |pending.Keys|;
  }

  // ---- the extension's socket ----

  predicate Opens(input: Input, ws: SocketId) { input.Opened? && input.ws == ws }

  predicate Closes(input: Input, ws: SocketId) { input.Closed? && input.ws == ws }

  /** `ws` is the socket opened last, and it has not closed since. */
  ghost predicate IsCurrent(inputs: seq<Input>, ws: SocketId) {
    exists k :: 0 <= k < |inputs| && CurrentSince(inputs, ws, k)
  }

  ghost predicate CurrentSince(inputs: seq<Input>, ws: SocketId, k: int)
    requires 0 <= k < |inputs|
  {
    Opens(inputs[k], ws) && forall j :: k < j < |inputs| ==> !inputs[j].Opened? && !Closes(inputs[j], ws)
  }

  lemma CurrentSnoc(inputs: seq<Input>, input: Input, ws: SocketId)
    ensures IsCurrent(inputs + [input], ws) <==>
            Opens(input, ws) || (IsCurrent(inputs, ws) && !input.Opened? && !Closes(input, ws))
  {
    var all := inputs + [input];
    if Opens(input, ws) {
      assert CurrentSince(all, ws, |inputs|);
    } else if IsCurrent(all, ws) {
      var k :| 0 <= k < |all| && CurrentSince(all, ws, k);
      assert k < |inputs| && all[|inputs|] == input;
      assert forall j :: 0 <= j < |inputs| ==> all[j] == inputs[j];
      assert CurrentSince(inputs, ws, k);
    } else if IsCurrent(inputs, ws) && !input.Opened? && !Closes(input, ws) {
      var k :| 0 <= k < |inputs| && CurrentSince(inputs, ws, k);
      assert CurrentSince(all, ws, k);
    }
  }

  lemma StepSocket(s: State, input: Input, ws: SocketId)
    requires Enabled(s, input)
    ensures Step(s, input).extension == Some(ws) <==>
            Opens(input, ws) || (s.extension == Some(ws) && !input.Opened? && !Closes(input, ws))
  {
    match input
    case Opened(_, _, _, _) =>
    case Closed(_, _, _) =>
    case Received(_, _, _) =>
    case Request(_, _, _, _, _) =>
    case Timeout(_) =>
    case ReceivedGarbage(_, _, _) =>
    case Subscribed(_, _, _, _) =>
    case Ticked(_, _) =>
    case Unsubscribed(_) =>
  }

  /** The relay's extension is the socket opened last, if that one has not closed; late closes of
      replaced sockets, and closes that run inside `open`, make no difference. */
  lemma {:induction false} ExtensionIsLatest(states: seq<State>, inputs: seq<Input>, n: nat, ws: SocketId)
    requires IsRun(states, inputs) && n < |states|
    ensures states[n].extension == Some(ws) <==> IsCurrent(inputs[..n], ws)
  {
    if n > 0 {
      ExtensionIsLatest(states, inputs, n - 1, ws);
      StepSocket(states[n - 1], inputs[n - 1], ws);
      assert inputs[..n] == inputs[..n - 1] + [inputs[n - 1]];
      CurrentSnoc(inputs[..n - 1], inputs[n - 1], ws);
    }
  }

  function LastStatus(pushes: seq<Push>): Option<bool> {
    if pushes == [] then None
    else
      var last := pushes[|pushes| - 1];
      if last.Status? then Some(last.extensionConnected) else LastStatus(pushes[..|pushes| - 1])
  }

  ghost predicate StatusMatch(s: State) { s.extension.Some? <==> LastStatus(s.broadcasts) == Some(true) }

  lemma LastStatusSnoc(pushes: seq<Push>, push: Push)
    ensures LastStatus(pushes + [push]) == if push.Status? then Some(push.extensionConnected) else LastStatus(pushes)
  {
    assert (pushes + [push])[..|pushes|] == pushes;
  }

  lemma BroadcastStatus(s: State, push: Push, broken: set<ClientId>)
    ensures LastStatus(Broadcast(s, push, broken).broadcasts) ==
            if push.Status? then Some(push.extensionConnected) else LastStatus(s.broadcasts)
  {
    LastStatusSnoc(s.broadcasts, push);
  }

  lemma CloseStatus(s: State, ws: SocketId, why: CloseEvent, broken: set<ClientId>)
    requires StatusMatch(s)
    ensures StatusMatch(CloseSocket(s, ws, why, broken))
  {
    BroadcastStatus(FailAll(StopKeepalive(s.(extension := None)), Disconnected, Disconnection(why)),
                    Status(false), broken);
  }

  lemma OpenStatus(s: State, ws: SocketId, open: set<SocketId>, eviction: Eviction, broken: set<ClientId>)
    ensures StatusMatch(OpenSocket(s, ws, open, eviction, broken))
  {
    var s' := OpenSocket(s, ws, open, eviction, broken);
    var n := |s'.broadcasts| - 1;
    assert s'.broadcasts == s'.broadcasts[..n] + [Status(true)];
    LastStatusSnoc(s'.broadcasts[..n], Status(true));
  }

  lemma ReceiveStatus(s: State, ws: SocketId, message: Json, broken: set<ClientId>)
    requires StatusMatch(s)
    ensures StatusMatch(ReceiveJson(s, ws, message, broken))
  {
    match Classify(message)
    case Reply(response) => BroadcastStatus(s, Orphan(message), broken);
    case EventOrLog => BroadcastStatus(s, Forwarded(message), broken);
    case Unknown => BroadcastStatus(s, UnknownMessage(message), broken);
  }

  lemma StepStatus(s: State, input: Input)
    requires StatusMatch(s) && Enabled(s, input)
    ensures StatusMatch(Step(s, input))
  {
    match input
    case Opened(ws, open, eviction, broken) => OpenStatus(s, ws, open, eviction, broken);
    case Closed(ws, why, broken) => CloseStatus(s, ws, why, broken);
    case Received(ws, message, broken) => ReceiveStatus(s, ws, message, broken);
    case ReceivedGarbage(text, cause, broken) =>
      BroadcastStatus(s, BadMessage(text, BadMessageInfo(text, cause)), broken);
    case Request(_, _, _, _, _) =>
    case Timeout(_) =>
    case Subscribed(_, _, _, _) =>
    case Ticked(_, _) =>
    case Unsubscribed(_) =>
  }

  lemma {:induction false} StatusRun(states: seq<State>, inputs: seq<Input>, n: nat)
    requires IsRun(states, inputs) && n < |states|
    ensures StatusMatch(states[n])
  {
    if n > 0 {
      StatusRun(states, inputs, n - 1);
      StepStatus(states[n - 1], inputs[n - 1]);
    }
  }

  /** The status broadcast last, if any, says whether the extension is connected now. */
  lemma StatusIsCurrent(states: seq<State>, inputs: seq<Input>, n: nat)
    requires IsRun(states, inputs) && n < |states|
    ensures var status := LastStatus(states[n].broadcasts);
            if status.Some? then status.value == states[n].extension.Some? else states[n].extension == None
  {
    StatusRun(states, inputs, n);
  }

  // ---- what is forwarded ----

  function ForwardOf(push: Push): seq<Json> { if push.Forwarded? then [push.message] else [] }

  /** The messages forwarded as they came, in order. */
  function Forwards(pushes: seq<Push>): seq<Json> {
    if pushes == [] then [] else Forwards(pushes[..|pushes| - 1]) + ForwardOf(pushes[|pushes| - 1])
  }

  lemma ForwardsSnoc(pushes: seq<Push>, push: Push)
    ensures Forwards(pushes + [push]) == Forwards(pushes) + ForwardOf(push)
  {
    assert (pushes + [push])[..|pushes|] == pushes;
  }

  lemma {:induction false} ForwardsConcat(a: seq<Push>, b: seq<Push>)
    ensures Forwards(a + b) == Forwards(a) + Forwards(b)
    decreases |b|
  {
    if b == [] {
      assert a + b == a;
    } else {
      var n := |b| - 1;
      assert a + b == (a + b[..n]) + [b[n]] && b == b[..n] + [b[n]];
      ForwardsConcat(a, b[..n]);
      ForwardsSnoc(a + b[..n], b[n]);
    }
  }

  lemma {:induction false} ForwardsContain(pushes: seq<Push>, i: nat)
    requires i < |pushes| && pushes[i].Forwarded?
    ensures pushes[i].message in Forwards(pushes)
    decreases |pushes|
  {
    if i < |pushes| - 1 {
      ForwardsContain(pushes[..|pushes| - 1], i);
    }
  }

  /** What an input gives the relay to forward: an event or a log, received from the extension. */
  function NewsOf(input: Input): seq<Json> {
    if input.Received? && Classify(input.message).EventOrLog? then [input.message] else []
  }

  function News(inputs: seq<Input>): seq<Json> {
    if inputs == [] then [] else News(inputs[..|inputs| - 1]) + NewsOf(inputs[|inputs| - 1])
  }

  lemma BroadcastForwards(s: State, push: Push, broken: set<ClientId>)
    ensures Forwards(Broadcast(s, push, broken).broadcasts) == Forwards(s.broadcasts) + ForwardOf(push)
  {
    ForwardsSnoc(s.broadcasts, push);
  }

  lemma CloseForwards(s: State, ws: SocketId, why: CloseEvent, broken: set<ClientId>)
    ensures Forwards(CloseSocket(s, ws, why, broken).broadcasts) == Forwards(s.broadcasts)
  {
    BroadcastForwards(FailAll(StopKeepalive(s.(extension := None)), Disconnected, Disconnection(why)), Status(false), broken);
  }

  lemma OpenForwards(s: State, ws: SocketId, open: set<SocketId>, eviction: Eviction, broken: set<ClientId>)
    ensures Forwards(OpenSocket(s, ws, open, eviction, broken).broadcasts) == Forwards(s.broadcasts)
  {
    if Route(s, open).Some? && eviction.Nested? {
      CloseForwards(FailAll(s, Replaced, RECONNECTED), s.extension.value, EVICTED, eviction.broken);
    }
    var evicted := Evict(s, open, eviction);
    BroadcastForwards(StartKeepalive(evicted.(extension := Some(ws)), ws), Status(true), broken);
  }

  lemma ReceiveForwards(s: State, ws: SocketId, message: Json, broken: set<ClientId>)
    ensures Forwards(ReceiveJson(s, ws, message, broken).broadcasts) ==
            Forwards(s.broadcasts) + NewsOf(Received(ws, message, broken))
  {
    match Classify(message)
    case Reply(_) => BroadcastForwards(s, Orphan(message), broken);
    case EventOrLog => BroadcastForwards(s, Forwarded(message), broken);
    case Unknown => BroadcastForwards(s, UnknownMessage(message), broken);
  }

  /** The relay forwards exactly the events and logs it receives. */
  lemma StepForwards(s: State, input: Input)
    requires Enabled(s, input)
    ensures Forwards(Step(s, input).broadcasts) == Forwards(s.broadcasts) + NewsOf(input)
  {
    match input
    case Opened(ws, open, eviction, broken) => OpenForwards(s, ws, open, eviction, broken);
    case Closed(ws, why, broken) => CloseForwards(s, ws, why, broken);
    case Received(ws, message, broken) => ReceiveForwards(s, ws, message, broken);
    case ReceivedGarbage(text, cause, broken) => BroadcastForwards(s, BadMessage(text, BadMessageInfo(text, cause)), broken);
    case Request(_, _, _, _, _) =>
    case Timeout(_) =>
    case Subscribed(_, _, _, _) =>
    case Ticked(_, _) =>
    case Unsubscribed(_) =>
  }

  /** Over every run, what was forwarded is what came in to be forwarded, in that order. */
  lemma {:induction false} ForwardsTheNews(states: seq<State>, inputs: seq<Input>, n: nat)
    requires IsRun(states, inputs) && n < |states|
    ensures Forwards(states[n].broadcasts) == News(inputs[..n])
  {
    if n > 0 {
      ForwardsTheNews(states, inputs, n - 1);
      StepForwards(states[n - 1], inputs[n - 1]);
      assert inputs[..n][..n - 1] == inputs[..n - 1];
    }
  }

  // ---- fan-out ----

  /** Of two live clients, the one that joined later heard a suffix of what the other heard. */
  lemma LaterHearsSuffix(states: seq<State>, inputs: seq<Input>, n: nat, c: ClientId, d: ClientId)
    requires IsRun(states, inputs) && n < |states|
    requires c in states[n].sseClients && d in states[n].sseClients
    ensures c in states[n].feeds && d in states[n].feeds
    ensures states[n].feeds[c].since <= states[n].feeds[d].since ==>
              var gap := states[n].feeds[d].since - states[n].feeds[c].since;
              gap <= |Heard(states[n].feeds[c])| && Heard(states[n].feeds[c])[gap..] == Heard(states[n].feeds[d])
  {
    RunInv(states, inputs, n);
    assert FeedMatch(states[n], c) && FeedMatch(states[n], d);
  }

  /** What a client hears is every broadcast made while it is live, from the one after it joined on. */
  lemma {:induction false} HearsEveryBroadcast(states: seq<State>, inputs: seq<Input>, n: nat, m: nat, c: ClientId)
    requires IsRun(states, inputs) && n < m < |states|
    requires inputs[n].Subscribed? && inputs[n].client == c && c in states[m].sseClients
    ensures c in states[m].feeds
    ensures |states[n].broadcasts| <= |states[m].broadcasts|
    ensures Heard(states[m].feeds[c]) == states[m].broadcasts[|states[n].broadcasts|..]
  {
    RunInv(states, inputs, m);
    assert FeedMatch(states[m], c);
    JoinPointKept(states, inputs, n + 1, m, c);
  }

  lemma {:induction false} JoinPointKept(states: seq<State>, inputs: seq<Input>, n: nat, m: nat, c: ClientId)
    requires IsRun(states, inputs) && n <= m < |states| && c in states[n].feeds
    ensures c in states[m].feeds && states[m].feeds[c].since == states[n].feeds[c].since
    decreases m
  {
    if n < m {
      JoinPointKept(states, inputs, n, m - 1, c);
      StepKeepsJoinPoint(states[m - 1], inputs[m - 1], c);
    }
  }

  ghost predicate SameJoinPoint(s: State, s': State, c: ClientId) {
    c in s.feeds ==> c in s'.feeds && s'.feeds[c].since == s.feeds[c].since
  }

  lemma CloseKeepsJoinPoint(s: State, ws: SocketId, why: CloseEvent, broken: set<ClientId>, c: ClientId)
    ensures SameJoinPoint(s, CloseSocket(s, ws, why, broken), c)
  {
  }

  lemma OpenKeepsJoinPoint(s: State, ws: SocketId, open: set<SocketId>, eviction: Eviction, broken: set<ClientId>, c: ClientId)
    ensures SameJoinPoint(s, OpenSocket(s, ws, open, eviction, broken), c)
  {
    if Route(s, open).Some? && eviction.Nested? {
      CloseKeepsJoinPoint(FailAll(s, Replaced, RECONNECTED), s.extension.value, EVICTED, eviction.broken, c);
    }
  }

  lemma ReceiveKeepsJoinPoint(s: State, ws: SocketId, message: Json, broken: set<ClientId>, c: ClientId)
    ensures SameJoinPoint(s, ReceiveJson(s, ws, message, broken), c)
  {
  }

  lemma StepKeepsJoinPoint(s: State, input: Input, c: ClientId)
    requires Enabled(s, input)
    ensures SameJoinPoint(s, Step(s, input), c)
  {
    match input
    case Opened(ws, open, eviction, broken) => OpenKeepsJoinPoint(s, ws, open, eviction, broken, c);
    case Closed(ws, why, broken) => CloseKeepsJoinPoint(s, ws, why, broken, c);
    case Received(ws, message, broken) => ReceiveKeepsJoinPoint(s, ws, message, broken, c);
    case Request(kind, params, wait, open, sending) =>
    case Timeout(timer) =>
    case ReceivedGarbage(_, _, _) =>
    case Subscribed(_, _, _, _) =>
    case Ticked(_, _) =>
    case Unsubscribed(_) =>
  }
}
