/** What the relay tells the two sides: how each request was answered and why, and what each
    event-stream client was sent. */
module RelayAnswers {
  import opened Prelude
  import opened Json
  import opened Messages
  import opened RelayState
  import opened RelayRuns

  // ---- how requests are answered ----

  /** An error of the relay's own making: a code and a text, told in the error and in the error info alike. */
  predicate OwnAnswer(r: Response, id: nat, code: string, status: nat) {
    && r.id == id && r.result == None && r.errorInfo.Some?
    && r.errorInfo.value.code == code && r.errorInfo.value.message != ""
    && r.error == Some(r.errorInfo.value.message)
    && !BodyOk(r) && StatusOf(r) == status
  }

  predicate DetailIs(r: Response, key: string, value: Json)
    requires r.errorInfo.Some?
  {
    r.errorInfo.value.details.Some? && Prop(r.errorInfo.value.details.value, key) == Some(value)
  }

  /** The time waited, and a hint if the request asked for one. */
  function TimeoutText(wait: Wait): string {
    var base := "Timeout after " + Digits(wait.timeoutMs) + "ms";
    if wait.blockedHint
    then base + ". The browser extension may be blocked. Manually refresh the extension and retry."
    else base
  }

  /** The extension's socket is there and open. */
  predicate Reachable(s: State, open: set<SocketId>) { s.extension.Some? && s.extension.value in open }

  /** The input is what this resolution of the request says it is, and the answer tells so. */
  predicate HasCause(s: State, input: Input, id: nat, res: Resolution)
    requires Enabled(s, input)
  {
    var r := res.response;
    match res.origin
    case Replied(ws) =>
      && input.Received? && input.ws == ws
      && IsResponse(input.message) && Prop(input.message, "id") == Some(JNumber(id)) && r == DecodeResponse(input.message)
    case TimedOut =>
      && input.Timeout? && s.timers[input.timer].id == id && 1 <= id <= |s.issues|
      && OwnAnswer(r, id, "COMMAND_TIMEOUT", 504)
      && DetailIs(r, "timeoutMs", JNumber(s.issues[id - 1].wait.timeoutMs)) && r.errorInfo.value.cause == None
      && r.errorInfo.value.message == TimeoutText(s.issues[id - 1].wait)
    case SendFailed =>
      && input.Request? && id == s.nextId && Reachable(s, input.open) && input.sending.Throws?
      && OwnAnswer(r, id, "WS_SEND_FAILED", 502) && r.errorInfo.value.details == None
      && r.errorInfo.value.cause == (if input.sending.cause == "" then None else Some(input.sending.cause))
    case NotConnected =>
      && input.Request? && id == s.nextId && !Reachable(s, input.open)
      && OwnAnswer(r, id, "EXTENSION_NOT_CONNECTED", 503)
      && r.errorInfo.value.details == None && r.errorInfo.value.cause == None
    case Disconnected =>
      && input.Closed? && s.extension == Some(input.ws)
      && OwnAnswer(r, id, "EXTENSION_DISCONNECTED", 502)
      && DetailIs(r, "code", JNumber(input.why.code)) && DetailIs(r, "reason", JString(input.why.reason))
      && r.errorInfo.value.cause == None
    case Replaced =>
      && input.Opened? && Reachable(s, input.open)
      && OwnAnswer(r, id, "EXTENSION_RECONNECTED", 502)
      && r.errorInfo.value.details == None && r.errorInfo.value.cause == None
  }

  /** An armed timer waits as long as its request may. */
  ghost predicate WaitsMatch(s: State) {
    forall t :: t in s.timers && 1 <= s.timers[t].id <= |s.issues| ==> s.issues[s.timers[t].id - 1].wait == s.timers[t].wait
  }

  lemma FewerTimersMatch(s: State, s': State)
    requires WaitsMatch(s) && Extends(s, s')
    requires forall t :: t in s'.timers ==> t in s.timers && s'.timers[t] == s.timers[t]
    requires forall t :: t in s.timers ==> 1 <= s.timers[t].id <= |s.issues|
    ensures WaitsMatch(s')
  {
  }

  lemma CloseTimers(s: State, ws: SocketId, why: CloseEvent, broken: set<ClientId>)
    ensures forall t :: t in CloseSocket(s, ws, why, broken).timers ==> t in s.timers && CloseSocket(s, ws, why, broken).timers[t] == s.timers[t]
  {
  }

  lemma OpenTimers(s: State, ws: SocketId, open: set<SocketId>, eviction: Eviction, broken: set<ClientId>)
    ensures var s' := OpenSocket(s, ws, open, eviction, broken);
            forall t :: t in s'.timers ==> t in s.timers && s'.timers[t] == s.timers[t]
  {
    if Route(s, open).Some? && eviction.Nested? {
      CloseTimers(FailAll(s, Replaced, RECONNECTED), s.extension.value, EVICTED, eviction.broken);
    }
  }

  lemma TimersAreDrawn(s: State)
    requires Inv(s)
    ensures forall t :: t in s.timers ==> 1 <= s.timers[t].id <= |s.issues|
  {
    assert forall t :: t in s.timers ==> s.timers[t].id in s.pending;
  }

  lemma IssueWaits(s: State, kind: string, params: Json, wait: Wait, open: set<SocketId>, sending: Sending)
    requires Inv(s) && WaitsMatch(s)
    ensures WaitsMatch(IssueCommand(s, kind, params, wait, open, sending))
  {
    var s', id := IssueCommand(s, kind, params, wait, open, sending), s.nextId;
    TimersAreDrawn(s);
    IssueExtends(s, kind, params, wait, open, sending);
    NewRequest(s, kind, params, wait, open, sending);
    if id !in s'.pending {
      FewerTimersMatch(s, s');
    } else {
      OneMoreTimerMatches(s, s', s'.pending[id], Alarm(id, wait));
    }
  }

  lemma OneMoreTimerMatches(s: State, s': State, timer: TimerId, alarm: Alarm)
    requires WaitsMatch(s) && Extends(s, s') && s'.timers == s.timers[timer := alarm]
    requires forall t :: t in s.timers ==> 1 <= s.timers[t].id <= |s.issues|
    requires 1 <= alarm.id <= |s'.issues| && s'.issues[alarm.id - 1].wait == alarm.wait
    ensures WaitsMatch(s')
  {
  }

  /** Only a request arms a timer. */
  lemma OtherTimers(s: State, input: Input)
    requires Enabled(s, input) && !input.Request?
    ensures forall t :: t in Step(s, input).timers ==> t in s.timers && Step(s, input).timers[t] == s.timers[t]
  {
    match input
    case Opened(ws, open, eviction, broken) => OpenTimers(s, ws, open, eviction, broken);
    case Closed(ws, why, broken) => CloseTimers(s, ws, why, broken);
    case Timeout(_) =>
    case Received(_, _, _) =>
    case ReceivedGarbage(_, _, _) =>
    case Subscribed(_, _, _, _) =>
    case Ticked(_, _) =>
    case Unsubscribed(_) =>
  }

  lemma StepWaits(s: State, input: Input)
    requires Inv(s) && WaitsMatch(s) && Enabled(s, input)
    ensures WaitsMatch(Step(s, input))
  {
    if input.Request? {
      IssueWaits(s, input.kind, input.params, input.wait, input.open, input.sending);
    } else {
      StepExtends(s, input);
      TimersAreDrawn(s);
      OtherTimers(s, input);
      FewerTimersMatch(s, Step(s, input));
    }
  }

  lemma {:induction false} RunWaits(states: seq<State>, inputs: seq<Input>, n: nat)
    requires IsRun(states, inputs) && n < |states|
    ensures WaitsMatch(states[n])
  {
    if n > 0 {
      RunWaits(states, inputs, n - 1);
      RunInv(states, inputs, n - 1);
      StepWaits(states[n - 1], inputs[n - 1]);
    }
  }

  // ---- each answer, spelled out ----

  lemma TimeoutTells(alarm: Alarm)
    ensures var r := TimeoutAnswer(alarm);
            && OwnAnswer(r, alarm.id, "COMMAND_TIMEOUT", 504)
            && DetailIs(r, "timeoutMs", JNumber(alarm.wait.timeoutMs)) && r.errorInfo.value.cause == None
            && r.errorInfo.value.message == TimeoutText(alarm.wait)
  {
    ObjectProp([Member("timeoutMs", Some(JNumber(alarm.wait.timeoutMs)))], 0);
    assert TimeoutInfo(alarm.wait).message[0] == 'T';
    StatusOfCodes(TimeoutAnswer(alarm));
  }

  lemma DisconnectionTells(id: nat, why: CloseEvent)
    ensures var r := ErrorResponse(id, Disconnection(why));
            && OwnAnswer(r, id, "EXTENSION_DISCONNECTED", 502)
            && DetailIs(r, "code", JNumber(why.code)) && DetailIs(r, "reason", JString(why.reason))
            && r.errorInfo.value.cause == None
  {
    var members := [Member("code", Some(JNumber(why.code))), Member("reason", Some(JString(why.reason)))];
    ObjectProp(members, 0);
    ObjectProp(members, 1);
    StatusOfCodes(ErrorResponse(id, Disconnection(why)));
  }

  lemma PlainErrorTells(id: nat, info: ErrorInfo)
    requires info.message != "" && info.code in ["EXTENSION_NOT_CONNECTED", "EXTENSION_RECONNECTED", "WS_SEND_FAILED"]
    ensures OwnAnswer(ErrorResponse(id, info), id, info.code, if info.code == "EXTENSION_NOT_CONNECTED" then 503 else 502)
    ensures ErrorResponse(id, info).errorInfo == Some(info)
  {
    StatusOfCodes(ErrorResponse(id, info));
  }

  lemma PendingCause(s: State, input: Input, id: nat)
    requires Inv(s) && WaitsMatch(s) && Enabled(s, input) && id in s.pending && CauseOf(s, input, id).Some?
    ensures HasCause(s, input, id, CauseOf(s, input, id).value)
  {
    match input
    case Timeout(timer) => TimeoutCause(s, timer, id);
    case Closed(_, why, _) => DisconnectionTells(id, why);
    case Opened(_, _, _, _) => PlainErrorTells(id, RECONNECTED);
    case Received(ws, message, broken) => ReplyCause(s, ws, message, broken, id);
  }

  lemma TimeoutCause(s: State, timer: TimerId, id: nat)
    requires Inv(s) && WaitsMatch(s) && timer in s.timers && s.timers[timer].id == id && 1 <= id <= |s.issues|
    ensures HasCause(s, Timeout(timer), id, Resolution(TimedOut, TimeoutAnswer(s.timers[timer])))
  {
    TimeoutTells(s.timers[timer]);
  }

  lemma ReplyCause(s: State, ws: SocketId, message: Json, broken: set<ClientId>, id: nat)
    requires IsResponse(message) && DecodeResponse(message).id == id
    ensures HasCause(s, Received(ws, message, broken), id, Resolution(Replied(ws), DecodeResponse(message)))
  {
  }

  lemma NewRequestCause(s: State, input: Input)
    requires Inv(s) && input.Request?
    ensures var s', id := Step(s, input), s.nextId;
            id !in s'.pending ==>
              && id == |s'.issues| && |s'.issues[id - 1].resolutions| == 1
              && HasCause(s, input, id, s'.issues[id - 1].resolutions[0])
  {
    NewRequest(s, input.kind, input.params, input.wait, input.open, input.sending);
    PlainErrorTells(s.nextId, NOT_CONNECTED);
    if input.sending.Throws? {
      PlainErrorTells(s.nextId, SendFailure(input.sending.cause));
    }
  }

  /** A step that settles a request, drawn before or in it, is the cause its resolution names. */
  lemma StepHasCause(s: State, input: Input, id: nat)
    requires Inv(s) && WaitsMatch(s) && Enabled(s, input)
    requires id in s.pending || (id == s.nextId && input.Request?)
    ensures var s' := Step(s, input);
            id !in s'.pending ==>
              && 1 <= id <= |s'.issues| && |s'.issues[id - 1].resolutions| == 1
              && HasCause(s, input, id, s'.issues[id - 1].resolutions[0])
  {
    if id in s.pending {
      FirstCauseSettles(s, input, id);
      if CauseOf(s, input, id).Some? {
        PendingCause(s, input, id);
      }
    } else {
      NewRequestCause(s, input);
    }
  }

  lemma CloseDrawsNothing(s: State, ws: SocketId, why: CloseEvent, broken: set<ClientId>)
    ensures CloseSocket(s, ws, why, broken).nextId == s.nextId
  {
  }

  lemma OpenDrawsNothing(s: State, ws: SocketId, open: set<SocketId>, eviction: Eviction, broken: set<ClientId>)
    ensures OpenSocket(s, ws, open, eviction, broken).nextId == s.nextId
  {
    if Route(s, open).Some? && eviction.Nested? {
      CloseDrawsNothing(FailAll(s, Replaced, RECONNECTED), s.extension.value, EVICTED, eviction.broken);
    }
  }

  lemma ReceiveDrawsNothing(s: State, ws: SocketId, m: Json, broken: set<ClientId>)
    ensures ReceiveJson(s, ws, m, broken).nextId == s.nextId
  {
  }

  /** Which ids a step draws. */
  lemma StepDraws(s: State, input: Input)
    requires Enabled(s, input)
    ensures Step(s, input).nextId == if input.Request? then s.nextId + 1 else s.nextId
  {
    match input
    case Opened(ws, open, eviction, broken) => OpenDrawsNothing(s, ws, open, eviction, broken);
    case Received(ws, m, broken) => ReceiveDrawsNothing(s, ws, m, broken);
    case Closed(ws, why, broken) => CloseDrawsNothing(s, ws, why, broken);
    case Request(_, _, _, _, _) =>
    case Timeout(_) =>
    case ReceivedGarbage(_, _, _) =>
    case Subscribed(_, _, _, _) =>
    case Ticked(_, _) =>
    case Unsubscribed(_) =>
  }

  /** The step that settled the request, or else its resolution is as it was before the step. */
  lemma LastStepHasCause(states: seq<State>, inputs: seq<Input>, n: nat, id: nat)
    requires IsRun(states, inputs) && n < |inputs| && 1 <= id < states[n + 1].nextId && id !in states[n + 1].pending
    ensures id <= |states[n + 1].issues| && |states[n + 1].issues[id - 1].resolutions| == 1
    ensures if id < states[n].nextId && id !in states[n].pending
            then id <= |states[n].issues| && states[n + 1].issues[id - 1].resolutions == states[n].issues[id - 1].resolutions
            else HasCause(states[n], inputs[n], id, states[n + 1].issues[id - 1].resolutions[0])
  {
    RunInv(states, inputs, n);
    RunInv(states, inputs, n + 1);
    assert Enabled(states[n], inputs[n]);
    StepDraws(states[n], inputs[n]);
    if id < states[n].nextId && id !in states[n].pending {
      NextExtends(states, inputs, n);
    } else {
      RunWaits(states, inputs, n);
      StepHasCause(states[n], inputs[n], id);
    }
  }

  /** Every settled request was settled by one input of the run, the one its answer names: its reply on that
      socket, its own timer after the time it was given, the close of the extension's socket with that code
      and reason, a failed send with that cause, a replacement, or the lack of a connection. */
  lemma {:induction false} SettlementHasItsCause(states: seq<State>, inputs: seq<Input>, n: nat, id: nat)
    returns (k: nat)
    requires IsRun(states, inputs) && n < |states| && 1 <= id < states[n].nextId && id !in states[n].pending
    ensures k < n && id <= |states[n].issues| && |states[n].issues[id - 1].resolutions| == 1
    ensures Enabled(states[k], inputs[k]) && HasCause(states[k], inputs[k], id, states[n].issues[id - 1].resolutions[0])
  {
    if n == 0 {
      assert false;
    } else {
      LastStepHasCause(states, inputs, n - 1, id);
      if id < states[n - 1].nextId && id !in states[n - 1].pending {
        k := SettlementHasItsCause(states, inputs, n - 1, id);
      } else {
        k := n - 1;
      }
    }
  }

  // ---- what clients are sent ----

  /** One broadcast, and the clients whose `enqueue` throws on it. */
  datatype Notice = Notice(push: Push, broken: set<ClientId>)

  /** The message's id is that of a pending request; an id that is no integer is none's. */
  predicate SettlesOne(s: State, m: Json) {
    Prop(m, "id").Some? && Prop(m, "id").value.JNumber? && Prop(m, "id").value.n >= 0 && Prop(m, "id").value.n in s.pending
  }

  /** What an input makes the relay broadcast. */
  function Announces(s: State, input: Input): seq<Notice> {
    match input
    case Opened(_, open, eviction, broken) =>
      (if Reachable(s, open) && eviction.Nested? then [Notice(Status(false), eviction.broken)] else [])
      + [Notice(Status(true), broken)]
    case Closed(ws, _, broken) => if s.extension == Some(ws) then [Notice(Status(false), broken)] else []
    case Received(_, m, broken) =>
      if !IsResponse(m) then [Notice(if IsEvent(m) || IsLog(m) then Forwarded(m) else UnknownMessage(m), broken)]
      else if SettlesOne(s, m) then [] else [Notice(Orphan(m), broken)]
    case ReceivedGarbage(text, cause, broken) =>
      var info := ErrorInfo("INVALID_EXTENSION_MESSAGE", "Received invalid JSON from extension websocket",
                            Some(Object([Member("textLength", Some(JNumber(|text|)))])),
                            if cause == "" then None else Some(cause));
      [Notice(BadMessage(text, info), broken)]
    case _ => []
  }

  function PushesOf(notices: seq<Notice>): seq<Push> {
    seq(|notices|, i requires 0 <= i < |notices| => notices[i].push)
  }

  /** What a live client gets of these broadcasts: all, up to the first that fails on it. */
  function Gets(c: ClientId, notices: seq<Notice>): seq<Frame> {
    if notices == [] || c in notices[0].broken then [] else [Data(notices[0].push)] + Gets(c, notices[1..])
  }

  predicate Survives(c: ClientId, notices: seq<Notice>) { forall i :: 0 <= i < |notices| ==> c !in notices[i].broken }

  function BroadcastAll(s: State, notices: seq<Notice>): State
    decreases |notices|
  {
    if notices == [] then s else BroadcastAll(Broadcast(s, notices[0].push, notices[0].broken), notices[1..])
  }

  lemma BroadcastReaches(s: State, push: Push, broken: set<ClientId>, c: ClientId)
    requires s.sseClients <= s.feeds.Keys && c in s.feeds
    ensures var s' := Broadcast(s, push, broken);
            && s'.sseClients <= s'.feeds.Keys && c in s'.feeds
            && (c in s'.sseClients <==> c in s.sseClients && c !in broken)
            && s'.feeds[c].since == s.feeds[c].since && s'.feeds[c].greeted == s.feeds[c].greeted
            && s'.feeds[c].frames ==
                 s.feeds[c].frames + (if c in s.sseClients && c !in broken then [Data(push)] else [])
  {
  }

  /** What a client gets of the broadcasts, if it is live. */
  function Share(s: State, c: ClientId, notices: seq<Notice>): seq<Frame> {
    if c in s.sseClients then Gets(c, notices) else []
  }

  lemma {:induction false} BroadcastAllReaches(s: State, notices: seq<Notice>, c: ClientId)
    requires s.sseClients <= s.feeds.Keys && c in s.feeds
    ensures var s' := BroadcastAll(s, notices);
            && c in s'.feeds
            && s'.feeds[c].since == s.feeds[c].since && s'.feeds[c].greeted == s.feeds[c].greeted
            && s'.feeds[c].frames == s.feeds[c].frames + Share(s, c, notices)
            && (c in s'.sseClients <==> c in s.sseClients && Survives(c, notices))
    decreases |notices|
  {
    if notices == [] {
      assert Share(s, c, notices) == [];
    } else {
      var push, broken := notices[0].push, notices[0].broken;
      BroadcastReaches(s, push, broken, c);
      BroadcastAllReaches(Broadcast(s, push, broken), notices[1..], c);
      if c in s.sseClients && c !in broken {
        Reassociate(s.feeds[c].frames, [Data(push)], Gets(c, notices[1..]));
      }
      assert Survives(c, notices) <==> c !in broken && Survives(c, notices[1..]);
    }
  }

  /** The clients and what was sent to them. */
  ghost predicate SameClients(s: State, t: State) {
    s.broadcasts == t.broadcasts && s.feeds == t.feeds && s.sseClients == t.sseClients
  }

  lemma SameAfterBroadcast(s: State, t: State, push: Push, broken: set<ClientId>)
    requires SameClients(s, t)
    ensures SameClients(Broadcast(s, push, broken), Broadcast(t, push, broken))
  {
  }

  lemma OneNotice(s: State, push: Push, broken: set<ClientId>)
    ensures BroadcastAll(s, [Notice(push, broken)]) == Broadcast(s, push, broken)
  {
  }

  lemma CloseAnnounces(s: State, ws: SocketId, why: CloseEvent, broken: set<ClientId>)
    ensures SameClients(CloseSocket(s, ws, why, broken), BroadcastAll(s, Announces(s, Closed(ws, why, broken))))
  {
    if s.extension == Some(ws) {
      OneNotice(s, Status(false), broken);
      SameAfterBroadcast(FailAll(StopKeepalive(s.(extension := None)), Disconnected, Disconnection(why)), s, Status(false), broken);
    }
  }

  lemma OpenAnnounces(s: State, ws: SocketId, open: set<SocketId>, eviction: Eviction, broken: set<ClientId>)
    ensures SameClients(OpenSocket(s, ws, open, eviction, broken), BroadcastAll(s, Announces(s, Opened(ws, open, eviction, broken))))
  {
    var evicted, last := Evict(s, open, eviction), Notice(Status(true), broken);
    if Reachable(s, open) && eviction.Nested? {
      var failed, first := FailAll(s, Replaced, RECONNECTED), Notice(Status(false), eviction.broken);
      CloseAnnounces(failed, s.extension.value, EVICTED, eviction.broken);
      OneNotice(failed, Status(false), eviction.broken);
      SameAfterBroadcast(failed, s, Status(false), eviction.broken);
      assert ([first] + [last])[1..] == [last];
      OneNotice(Broadcast(s, Status(false), eviction.broken), Status(true), broken);
      AdoptAnnounces(evicted, Broadcast(s, Status(false), eviction.broken), ws, broken);
    } else {
      OneNotice(s, Status(true), broken);
      AdoptAnnounces(evicted, s, ws, broken);
    }
  }

  lemma AdoptAnnounces(s: State, t: State, ws: SocketId, broken: set<ClientId>)
    requires SameClients(s, t)
    ensures SameClients(Adopt(s, ws, broken), Broadcast(t, Status(true), broken))
  {
    SameAfterBroadcast(StartKeepalive(s.(extension := Some(ws)), ws), t, Status(true), broken);
  }

  lemma ReceiveAnnounces(s: State, ws: SocketId, m: Json, broken: set<ClientId>)
    ensures SameClients(ReceiveJson(s, ws, m, broken), BroadcastAll(s, Announces(s, Received(ws, m, broken))))
  {
    if IsResponse(m) {
      OneNotice(s, Orphan(m), broken);
    } else {
      OneNotice(s, if IsEvent(m) || IsLog(m) then Forwarded(m) else UnknownMessage(m), broken);
    }
  }

  /** The input is one of those that announce something, or may. */
  predicate MayAnnounce(input: Input) { input.Opened? || input.Closed? || input.Received? || input.ReceivedGarbage? }

  lemma StepAnnounces(s: State, input: Input)
    requires Enabled(s, input) && MayAnnounce(input)
    ensures SameClients(Step(s, input), BroadcastAll(s, Announces(s, input)))
  {
    match input
    case Opened(ws, open, eviction, broken) => OpenAnnounces(s, ws, open, eviction, broken);
    case Closed(ws, why, broken) => CloseAnnounces(s, ws, why, broken);
    case Received(ws, m, broken) => ReceiveAnnounces(s, ws, m, broken);
    case ReceivedGarbage(text, cause, broken) => OneNotice(s, BadMessage(text, BadMessageInfo(text, cause)), broken);
  }

  /** What each step sends to a client, and whether the client stays: a live client gets every broadcast up to
      the first that fails on it, which is when it leaves; a tick brings it a comment; nothing else does. */
  lemma StepReaches(s: State, input: Input, c: ClientId)
    requires Inv(s) && Enabled(s, input) && c in s.feeds
    ensures var s' := Step(s, input);
            && c in s'.feeds && s'.feeds[c].since == s.feeds[c].since
            && s'.feeds[c].frames == s.feeds[c].frames
                 + (if c in s.sseClients then Gets(c, Announces(s, input)) else [])
                 + (if input == Ticked(c, true) then [Comment] else [])
            && (c in s'.sseClients <==>
                  c in s.sseClients && Survives(c, Announces(s, input)) && input != Unsubscribed(c))
  {
    if MayAnnounce(input) {
      StepAnnounces(s, input);
      BroadcastAllReaches(s, Announces(s, input), c);
    } else {
      QuietReaches(s, input, c);
    }
  }

  lemma QuietReaches(s: State, input: Input, c: ClientId)
    requires Enabled(s, input) && !MayAnnounce(input) && c in s.feeds
    ensures var s' := Step(s, input);
            && Announces(s, input) == [] && Gets(c, []) == [] && Survives(c, [])
            && c in s'.feeds && s'.feeds[c].since == s.feeds[c].since && s'.feeds[c].greeted == s.feeds[c].greeted
            && s'.feeds[c].frames == s.feeds[c].frames + (if input == Ticked(c, true) then [Comment] else [])
            && (c in s'.sseClients <==> c in s.sseClients && input != Unsubscribed(c))
  {
    match input
    case Request(_, _, _, _, _) =>
    case Timeout(_) =>
    case Subscribed(_, _, _, _) =>
    case Ticked(_, _) =>
    case Unsubscribed(_) =>
  }

  /** And what it adds to the broadcasts. */
  lemma StepBroadcasts(s: State, input: Input)
    requires Inv(s) && Enabled(s, input)
    ensures Step(s, input).broadcasts == s.broadcasts + PushesOf(Announces(s, input))
  {
    if MayAnnounce(input) {
      StepAnnounces(s, input);
      BroadcastAllAdds(s, Announces(s, input));
    }
  }

  lemma {:induction false} BroadcastAllAdds(s: State, notices: seq<Notice>)
    ensures BroadcastAll(s, notices).broadcasts == s.broadcasts + PushesOf(notices)
    decreases |notices|
  {
    if notices != [] {
      BroadcastAllAdds(Broadcast(s, notices[0].push, notices[0].broken), notices[1..]);
      assert PushesOf(notices) == [notices[0].push] + PushesOf(notices[1..]);
    }
  }

  /** A new client starts with a hello, unless that fails, and is live unless its request is aborted. */
  lemma SubscribeGreets(s: State, input: Input)
    requires Enabled(s, input) && input.Subscribed?
    ensures var s', c := Step(s, input), input.client;
            && c in s'.feeds && s'.feeds[c].since == |s.broadcasts| && s'.feeds[c].greeted == input.greeted
            && s'.feeds[c].frames == (if input.greeted then [Data(Hello(Reachable(s, input.open)))] else [])
            && (c in s'.sseClients <==> !input.aborted)
            && (forall d :: d != c ==> (d in s'.sseClients <==> d in s.sseClients) && (d in s'.feeds <==> d in s.feeds))
            && (forall d :: d != c && d in s.feeds ==> s'.feeds[d] == s.feeds[d])
  {
  }

  /** The hello of a client tells whether an extension was connected when the client subscribed. */
  lemma {:induction false} HelloTellsTheTruth(states: seq<State>, inputs: seq<Input>, n: nat, m: nat, c: ClientId)
    requires IsRun(states, inputs) && n < m < |states|
    requires inputs[n].Subscribed? && inputs[n].client == c && inputs[n].greeted
    ensures c in states[m].feeds && states[m].feeds[c].frames != [] && states[m].feeds[c].greeted
    ensures states[m].feeds[c].frames[0] == Data(Hello(Reachable(states[n], inputs[n].open)))
    ensures states[m].feeds[c].since == |states[n].broadcasts|
    decreases m
  {
    if m == n + 1 {
      assert Enabled(states[n], inputs[n]);
      SubscribeGreets(states[n], inputs[n]);
    } else {
      HelloTellsTheTruth(states, inputs, n, m - 1, c);
      RunInv(states, inputs, m - 1);
      StepReaches(states[m - 1], inputs[m - 1], c);
      StepKeepsGreeting(states[m - 1], inputs[m - 1], c);
    }
  }

  lemma StepKeepsGreeting(s: State, input: Input, c: ClientId)
    requires Inv(s) && Enabled(s, input) && c in s.feeds
    ensures c in Step(s, input).feeds && Step(s, input).feeds[c].greeted == s.feeds[c].greeted
  {
    if MayAnnounce(input) {
      StepAnnounces(s, input);
      BroadcastAllReaches(s, Announces(s, input), c);
    } else {
      QuietReaches(s, input, c);
    }
  }
}
