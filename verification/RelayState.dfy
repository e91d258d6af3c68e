/** The relay's state and what each synchronous block of it does, as functions on values.
    `RelayServer` is the program; its methods are proved to compute these functions. */
module RelayState {
  import opened Prelude
  import opened Json
  import opened Messages

  type TimerId = nat
  type IntervalId = nat
  type ClientId = nat

  /** Who settled a request. Only `Replied` carries an answer of the extension. */
  datatype Origin = Replied(socket: SocketId) | TimedOut | SendFailed | NotConnected | Disconnected | Replaced

  datatype Resolution = Resolution(origin: Origin, response: Response)

  /** One issued command, how long its request may wait, and every call of its `resolve`, in order. */
  datatype Issue = Issue(command: Command, wait: Wait, resolutions: seq<Resolution>)

  /** What the relay pushes to event-stream clients. */
  datatype Push =
    | Hello(extensionConnected: bool)
    | Status(extensionConnected: bool)
    | BadMessage(text: string, errorInfo: ErrorInfo)
    | Orphan(message: Json)
    | Forwarded(message: Json)
    | UnknownMessage(raw: Json)

  /** One chunk enqueued to a client's stream: a `data:` frame or a keepalive comment. */
  datatype Frame = Data(push: Push) | Comment

  /** A client's stream: where in the broadcast history it joined, whether its hello went out, and
      every frame enqueued since. */
  datatype Feed = Feed(since: nat, greeted: bool, frames: seq<Frame>)

  /** How long a request waits for its reply, and whether its timeout hints at a blocked extension. */
  datatype Wait = Wait(timeoutMs: nat, blockedHint: bool)

  /** What an armed timeout remembers. */
  datatype Alarm = Alarm(id: nat, wait: Wait)

  datatype State = State(
    // the relay's own variables
    extension: Option<SocketId>,
    nextId: nat,
    pending: map<nat, TimerId>,
    keepalive: Option<IntervalId>,
    sseClients: set<ClientId>,
    // the host: armed timeouts with the request each will settle, live intervals with the socket each pings
    timers: map<TimerId, Alarm>,
    nextTimer: TimerId,
    intervals: map<IntervalId, SocketId>,
    nextInterval: IntervalId,
    // history
    issues: seq<Issue>,
    broadcasts: seq<Push>,
    feeds: map<ClientId, Feed>)

  const INIT := State(None, 1, map[], None, {}, map[], 0, map[], 0, [], [], map[])

  // ---- settling requests ----

  function Resolve(issues: seq<Issue>, ids: set<nat>, origin: Origin, answer: nat -> Response): seq<Issue> {
    seq(|issues|, i requires 0 <= i < |issues| =>
      if i + 1 in ids then issues[i].(resolutions := issues[i].resolutions + [Resolution(origin, answer(i + 1))])
      else issues[i])
  }

  /** `respondPending`: settles the request and clears its timer; an id that is not pending is left alone. */
  function Respond(s: State, id: nat, origin: Origin, response: Response): State {
    if id !in s.pending then s
    else s.(timers := s.timers - {s.pending[id]},
            pending := s.pending - {id},
            issues := Resolve(s.issues, {id}, origin, _ => response))
  }

  /** `failAllPending` */
  function FailAll(s: State, origin: Origin, info: ErrorInfo): State {
    s.(timers := s.timers - s.pending.Values,
       pending := map[],
       issues := Resolve(s.issues, s.pending.Keys, origin, id => ErrorResponse(id, info)))
  }

  const NOT_CONNECTED := ErrorInfo("EXTENSION_NOT_CONNECTED", "Extension is not connected", None, None)

  const RECONNECTED :=
    ErrorInfo("EXTENSION_RECONNECTED", "Extension reconnected; previous in-flight commands were canceled.", None, None)

  function SendFailure(cause: string): ErrorInfo {
    ErrorInfo("WS_SEND_FAILED", "Failed to send command to extension", None, NonEmpty(Some(cause)))
  }

  /** Why a socket closed. */
  datatype CloseEvent = CloseEvent(code: int, reason: string)

  const EVICTED := CloseEvent(1012, "Replaced")

  function Disconnection(why: CloseEvent): ErrorInfo {
    ErrorInfo("EXTENSION_DISCONNECTED", "Extension disconnected before command completed.",
              Some(Object([Member("code", Some(JNumber(why.code))), Member("reason", Some(JString(why.reason)))])), None)
  }

  const BLOCKED_HINT :=
    ". The browser extension may be blocked. Manually refresh the extension and retry."

  function TimeoutInfo(wait: Wait): ErrorInfo {
    ErrorInfo("COMMAND_TIMEOUT",
              "Timeout after " + Digits(wait.timeoutMs) + "ms" + (if wait.blockedHint then BLOCKED_HINT else ""),
              Some(Object([Member("timeoutMs", Some(JNumber(wait.timeoutMs)))])), None)
  }

  /** The socket a new command goes out on: the extension's, if its ready state is OPEN. */
  function Route(s: State, open: set<SocketId>): Option<SocketId> {
    if s.extension.Some? && s.extension.value in open then s.extension else None
  }

  /** How `ws.send` turns out. */
  datatype Sending = Sent | Throws(cause: string)

  /** `makeCommand` followed in the same block by `sendCommandToExtension`. `open` are the sockets
      whose ready state is OPEN. */
  function IssueCommand(s: State, kind: string, params: Json, wait: Wait, open: set<SocketId>, sending: Sending): State {
    var id := s.nextId;
    var drawn := s.(nextId := id + 1, issues := s.issues + [Issue(Command(id, kind, params), wait, [])]);
    if Route(s, open).None? then
      drawn.(issues := Resolve(drawn.issues, {id}, NotConnected, _ => ErrorResponse(id, NOT_CONNECTED)))
    else
      var armed := Arm(drawn, id, wait);
      if sending.Sent? then armed else Respond(armed, id, SendFailed, ErrorResponse(id, SendFailure(sending.cause)))
  }

  /** A timeout is armed for the request, which is pending from now on. */
  function Arm(s: State, id: nat, wait: Wait): State {
    s.(timers := s.timers[s.nextTimer := Alarm(id, wait)], nextTimer := s.nextTimer + 1,
       pending := s.pending[id := s.nextTimer])
  }

  /** The timeout callback of an armed timer; the timer is spent once it fires. */
  function FireTimer(s: State, timer: TimerId): State
    requires timer in s.timers
  {
    var alarm := s.timers[timer];
    Respond(s.(timers := s.timers - {timer}), alarm.id, TimedOut, ErrorResponse(alarm.id, TimeoutInfo(alarm.wait)))
  }

  // ---- event-stream clients ----

  /** `sseBroadcast`: `broken` are the clients whose `enqueue` throws; they are dropped. */
  function Broadcast(s: State, push: Push, broken: set<ClientId>): State {
    var live := s.sseClients - broken;
    s.(sseClients := live,
       broadcasts := s.broadcasts + [push],
       feeds := map c | c in s.feeds ::
         if c in live then s.feeds[c].(frames := s.feeds[c].frames + [Data(push)]) else s.feeds[c])
  }

  /** A client opens `/events`; its hello may fail to enqueue, and its request may already be aborted. */
  function Subscribe(s: State, c: ClientId, open: set<SocketId>, greeted: bool, aborted: bool): State {
    var hello := Data(Hello(Route(s, open).Some?));
    s.(sseClients := if aborted then s.sseClients - {c} else s.sseClients + {c},
       feeds := s.feeds[c := Feed(|s.broadcasts|, greeted, if greeted then [hello] else [])])
  }

  /** One tick of a client's keepalive interval; `enqueued` is false when `enqueue` throws. */
  function KeepaliveTick(s: State, c: ClientId, enqueued: bool): State
    requires c in s.feeds
  {
    if enqueued then s.(feeds := s.feeds[c := s.feeds[c].(frames := s.feeds[c].frames + [Comment])]) else s
  }

  /** Abort or cancel of a client's request. */
  function Unsubscribe(s: State, c: ClientId): State { s.(sseClients := s.sseClients - {c}) }

  // ---- extension sockets ----

  /** `stopExtensionKeepalive` */
  function StopKeepalive(s: State): State {
    if s.keepalive.None? then s
    else s.(intervals := s.intervals - {s.keepalive.value}, keepalive := None)
  }

  /** `startExtensionKeepalive` */
  function StartKeepalive(s: State, ws: SocketId): State {
    var stopped := StopKeepalive(s);
    stopped.(intervals := stopped.intervals[stopped.nextInterval := ws],
             keepalive := Some(stopped.nextInterval), nextInterval := stopped.nextInterval + 1)
  }

  /** The websocket `close` handler. The close of a socket that was replaced changes nothing. */
  function CloseSocket(s: State, ws: SocketId, why: CloseEvent, broken: set<ClientId>): State {
    if s.extension != Some(ws) then s
    else
      var failed := FailAll(StopKeepalive(s.(extension := None)), Disconnected, Disconnection(why));
      Broadcast(failed, Status(false), broken)
  }

  /** How the old socket's `close()` call behaves inside `open`: with `Nested`, its close handler runs
      right there, before `open` goes on. */
  datatype Eviction = Quiet | Nested(broken: set<ClientId>)

  /** The websocket `open` handler. */
  function OpenSocket(s: State, ws: SocketId, open: set<SocketId>, eviction: Eviction, broken: set<ClientId>): State {
    Adopt(Evict(s, open, eviction), ws, broken)
  }

  /** An open predecessor is closed, and what waits on it fails. */
  function Evict(s: State, open: set<SocketId>, eviction: Eviction): State {
    if Route(s, open).None? then s
    else
      var failed := FailAll(s, Replaced, RECONNECTED);
      if eviction.Quiet? then failed else CloseSocket(failed, s.extension.value, EVICTED, eviction.broken)
  }

  function Adopt(s: State, ws: SocketId, broken: set<ClientId>): State {
    Broadcast(StartKeepalive(s.(extension := Some(ws)), ws), Status(true), broken)
  }

  /** The websocket `message` handler, on text that is JSON; `ws` need not be the current socket. */
  function ReceiveJson(s: State, ws: SocketId, message: Json, broken: set<ClientId>): State {
    match Classify(message)
    case Reply(response) =>
      if response.id >= 0 && response.id in s.pending then Respond(s, response.id, Replied(ws), response)
      else Broadcast(s, Orphan(message), broken)
    case EventOrLog => Broadcast(s, Forwarded(message), broken)
    case Unknown => Broadcast(s, UnknownMessage(message), broken)
  }

  /** The websocket `message` handler, on text that is not JSON. */
  function ReceiveGarbage(s: State, text: string, cause: string, broken: set<ClientId>): State {
    Broadcast(s, BadMessage(text, BadMessageInfo(text, cause)), broken)
  }

  /** `cause` is the parser's own message. */
  function BadMessageInfo(text: string, cause: string): ErrorInfo {
    ErrorInfo("INVALID_EXTENSION_MESSAGE", "Received invalid JSON from extension websocket",
              Some(Object([Member("textLength", Some(JNumber(|text|)))])), NonEmpty(Some(cause)))
  }

  // ---- one step of the relay, whatever its surroundings do ----

  datatype Input =
    | Request(kind: string, params: Json, wait: Wait, open: set<SocketId>, sending: Sending)
    | Timeout(timer: TimerId)
    | Opened(ws: SocketId, open: set<SocketId>, eviction: Eviction, broken: set<ClientId>)
    | Closed(ws: SocketId, why: CloseEvent, broken: set<ClientId>)
    | Received(ws: SocketId, message: Json, broken: set<ClientId>)
    | ReceivedGarbage(text: string, cause: string, broken: set<ClientId>)
    | Subscribed(client: ClientId, open: set<SocketId>, greeted: bool, aborted: bool)
    | Ticked(client: ClientId, enqueued: bool)
    | Unsubscribed(client: ClientId)

  /** A timer fires only while armed; a stream exists only after it was opened, and once. */
  predicate Enabled(s: State, input: Input) {
    match input
    case Timeout(timer) => timer in s.timers
    case Subscribed(client, _, _, _) => client !in s.feeds
    case Ticked(client, _) => client in s.feeds
    case _ => true
  }

  function Step(s: State, input: Input): State
    requires Enabled(s, input)
  {
    match input
    case Request(kind, params, wait, open, sending) => IssueCommand(s, kind, params, wait, open, sending)
    case Timeout(timer) => FireTimer(s, timer)
    case Opened(ws, open, eviction, broken) => OpenSocket(s, ws, open, eviction, broken)
    case Closed(ws, why, broken) => CloseSocket(s, ws, why, broken)
    case Received(ws, message, broken) => ReceiveJson(s, ws, message, broken)
    case ReceivedGarbage(text, cause, broken) => ReceiveGarbage(s, text, cause, broken)
    case Subscribed(client, open, greeted, aborted) => Subscribe(s, client, open, greeted, aborted)
    case Ticked(client, enqueued) => KeepaliveTick(s, client, enqueued)
    case Unsubscribed(client) => Unsubscribe(s, client)
  }
}
