/** The network recorder's state and what each of its callbacks does, as functions on values.
    `Recorder` is the program; its methods are proved to compute these functions. */
module RecorderState {
  import opened Prelude
  import opened Text
  import opened Json
  import opened JsTable

  /** The recorder's settings. `targetId` is never empty: the recorder refuses to start without one. */
  datatype Config = Config(targetId: string, allTargets: bool, raw: bool, includeHttp: bool, includeWs: bool,
                           httpOnly: bool, urlIncludes: string)

  // ---- events ----

  /** What the recorder reads of an event's params; absent members as in the source's defaults. */
  datatype Params = Params(
    all: Json,
    requestId: string,
    headers: Option<Json>,
    // request
    requestUrl: string, requestMethod: string, hasPostData: bool,
    // response
    responseUrl: string, status: Option<Json>,
    // loadingFailed
    errorText: Option<Json>, canceled: bool,
    // webSocket events
    url: Option<string>)

  datatype CdpEvent = CdpEvent(name: string, targetId: Option<string>, params: Params, message: Json)

  /** What `onMsg` takes a message for. An event whose name is neither a string nor falsy makes it throw. */
  datatype Message =
    | ParseErrorMsg(raw: Option<Json>)
    | StatusMsg
    | EventMsg(event: CdpEvent)
    | BadEventMsg(targetId: Option<string>)
    | OtherMsg

  /** `a?.key` */
  function PropOf(v: Option<Json>, key: string): Option<Json> { if v.Some? then Prop(v.value, key) else None }

  /** `!!v` */
  predicate IsTruthy(v: Option<Json>) {
    v.Some? && match v.value
               case JNull => false
               case JBool(b) => b
               case JNumber(n) => n != 0
               case JString(s) => s != ""
               case _ => true
  }

  /** `String(v ?? "")` */
  function AsText(v: Json): string {
    match v
    case JNull => ""
    case JBool(b) => if b then "true" else "false"
    case JNumber(n) => Print(v, 0, 0)
    case JDecimal(text) => text
    case JString(s) => s
    case JArray(items) => Join(seq(|items|, i requires 0 <= i < |items| => AsText(items[i])), ",")
    case JObject(_) => "[object Object]"
  }

  function TextAt(v: Option<Json>, key: string): string { AsText(OrNull(PropOf(v, key))) }

  function StringAt(v: Option<Json>, key: string): Option<string> {
    match PropOf(v, key)
    case Some(JString(s)) => Some(s)
    case _ => None
  }

  function RecordAt(v: Option<Json>, key: string): Option<Json> {
    var p := PropOf(v, key);
    if p.Some? && IsRecord(p.value) then p else None
  }

  function DecodeParams(v: Option<Json>): Params {
    var request, response := PropOf(v, "request"), PropOf(v, "response");
    var status, errorText := PropOf(response, "status"), PropOf(v, "errorText");
    Params(OrNull(v), TextAt(v, "requestId"), RecordAt(v, "headers"),
           TextAt(request, "url"), TextAt(request, "method"), IsTruthy(PropOf(request, "hasPostData")),
           TextAt(response, "url"),
           if status.Some? && (status.value.JNumber? || status.value.JDecimal?) then status else None,
           if errorText == Some(JNull) then None else errorText, IsTruthy(PropOf(v, "canceled")),
           StringAt(v, "url"))
  }

  /** The first tests of `onMsg`. */
  function Decode(message: Json): Message {
    var kind, params := Prop(message, "method"), Prop(message, "params");
    if kind == Some(JString("sse_parse_error")) then ParseErrorMsg(Prop(message, "raw"))
    else if kind == Some(JString("status")) then StatusMsg
    else if kind != Some(JString("forwardCDPEvent")) || !IsTruthy(PropOf(params, "method")) then OtherMsg
    else
      match PropOf(params, "method").value
      case JString(name) =>
        EventMsg(CdpEvent(name, StringAt(params, "targetId"), DecodeParams(PropOf(params, "params")), message))
      case _ => BadEventMsg(StringAt(params, "targetId"))
  }

  const WEB_SOCKET := "Network.webSocket"

  predicate IsWebSocketEvent(ev: CdpEvent) { StartsWith(ev.name, WEB_SOCKET) }

  // ---- records ----

  datatype HttpResponse = HttpResponse(url: Option<string>, status: Option<Json>, headersExtraInfo: Option<Json>,
                                       extraInfo: Option<Json>, body: Option<string>, bodyError: Option<string>)

  const NO_RESPONSE := HttpResponse(None, None, None, None, None, None)

  datatype HttpError = HttpError(errorText: Option<Json>, canceled: bool)

  /** `serial` numbers the records in the order they were put in the map. */
  datatype HttpRecord = HttpRecord(
    serial: nat, targetId: Option<string>, requestId: string,
    url: string, verb: string, headersExtraInfo: Option<Json>, extraInfo: Option<Json>, postData: Option<string>,
    response: Option<HttpResponse>, error: Option<HttpError>, raw: seq<Json>)

  datatype ConnMeta = ConnMeta(targetId: Option<string>, url: Option<string>, filteredOut: bool)

  datatype OutRecord =
    | Started
    | Stopped(reason: string)
    | Http(record: HttpRecord)
    | Ws(kind: string, targetId: Option<string>, requestId: string, url: Option<string>)
    | StreamError(raw: Option<Json>)
    | StatusRecord

  /** A fetch under way, completing in a later step. */
  datatype Fetch = PostFetch(requestId: string) | BodyFetch(requestId: string, message: Json)

  datatype State = State(
    httpRecords: Table<string, HttpRecord>,
    wsConns: map<string, ConnMeta>,
    output: seq<OutRecord>,
    writerClosed: bool,
    cleaned: bool,
    // the stop signal: raised once it has a reason
    stopReason: Option<string>,
    fetches: multiset<Fetch>,
    // history: how many records were put in the map, and which of them a later one replaced
    created: nat,
    replaced: set<nat>)

  const INIT := State(Table([], map[]), map[], [Started], false, false, None, multiset{}, 0, {})

  // ---- writing ----

  function Write(s: State, r: OutRecord): State {
    if s.writerClosed then s else s.(output := s.output + [r])
  }

  /** `emitHttpAndDelete` */
  function EmitHttpAndDelete(s: State, requestId: string): State {
    if requestId !in s.httpRecords.vals then s
    else
      var rec := s.httpRecords.vals[requestId];
      Write(s, Http(rec)).(httpRecords := s.httpRecords.Drop(requestId))
  }

  /** A new record goes into the map, over any record with the same request id. */
  function PutNew(s: State, rec: HttpRecord): State {
    s.(httpRecords := s.httpRecords.Put(rec.requestId, rec),
       created := s.created + 1,
       replaced := if rec.requestId in s.httpRecords.vals
                   then s.replaced + {s.httpRecords.vals[rec.requestId].serial} else s.replaced)
  }

  /** A record of the map is changed in place. */
  function Update(s: State, rec: HttpRecord): State { s.(httpRecords := s.httpRecords.Put(rec.requestId, rec)) }

  // ---- HTTP events ----

  predicate IsHttpUrl(url: string) { StartsWith(url, "http://") || StartsWith(url, "https://") }

  function Upper(s: string): string {
    seq(|s|, i requires 0 <= i < |s| => if 'a' <= s[i] <= 'z' then (s[i] as int - 32) as char else s[i])
  }

  /** `message` when raw payloads are kept, else nothing. */
  function RawOf(cfg: Config, ev: CdpEvent): seq<Json> { if cfg.raw then [ev.message] else [] }

  function NewRecord(cfg: Config, serial: nat, ev: CdpEvent, url: string, verb: string): HttpRecord {
    HttpRecord(serial, ev.targetId, ev.params.requestId, url, verb, None, None, None, None, None, RawOf(cfg, ev))
  }

  function OrElse<T>(a: Option<T>, b: Option<T>): Option<T> { if a.Some? then a else b }

  predicate Truthy(s: Option<string>) { s.Some? && s.value != "" }

  function RequestWillBeSent(cfg: Config, s: State, ev: CdpEvent): State {
    var p := ev.params;
    if cfg.httpOnly && !IsHttpUrl(p.requestUrl) then s
    else
      var put := PutNew(s, NewRecord(cfg, s.created, ev, p.requestUrl, p.requestMethod));
      var tries := p.hasPostData || (Upper(p.requestMethod) != "GET" && Upper(p.requestMethod) != "HEAD");
      if tries && Truthy(OrElse(ev.targetId, Some(cfg.targetId)))
      then put.(fetches := put.fetches + multiset{PostFetch(p.requestId)}) else put
  }

  function RequestExtraInfo(cfg: Config, s: State, ev: CdpEvent): State {
    var id := ev.params.requestId;
    if id !in s.httpRecords.vals then s
    else
      var rec := s.httpRecords.vals[id];
      Update(s, rec.(headersExtraInfo := OrElse(ev.params.headers, rec.headersExtraInfo),
                     extraInfo := Some(ev.params.all), raw := rec.raw + RawOf(cfg, ev)))
  }

  function ResponseReceived(cfg: Config, s: State, ev: CdpEvent): State {
    var p, id := ev.params, ev.params.requestId;
    if cfg.httpOnly && !IsHttpUrl(p.responseUrl) then s
    else
      var known := id in s.httpRecords.vals;
      var current := if known then s.httpRecords.vals[id] else NewRecord(cfg, s.created, ev, p.responseUrl, "");
      var before := if current.response.Some? then current.response.value else NO_RESPONSE;
      var rec := current.(targetId := OrElse(current.targetId, ev.targetId),
                          response := Some(before.(url := Some(p.responseUrl), status := p.status)));
      if known then Update(s, rec) else PutNew(s, rec)
  }

  function ResponseExtraInfo(cfg: Config, s: State, ev: CdpEvent): State {
    var id := ev.params.requestId;
    if id !in s.httpRecords.vals then s
    else
      var rec := s.httpRecords.vals[id];
      var before := if rec.response.Some? then rec.response.value else NO_RESPONSE;
      var after := before.(headersExtraInfo := OrElse(ev.params.headers, before.headersExtraInfo),
                           extraInfo := Some(ev.params.all));
      Update(s, rec.(response := Some(after), raw := rec.raw + RawOf(cfg, ev)))
  }

  function LoadingFinished(cfg: Config, s: State, ev: CdpEvent): State {
    var id := ev.params.requestId;
    if id !in s.httpRecords.vals then s
    else
      var rec := s.httpRecords.vals[id];
      if Truthy(OrElse(ev.targetId, OrElse(rec.targetId, Some(cfg.targetId))))
      then s.(fetches := s.fetches + multiset{BodyFetch(id, ev.message)})
      else EmitHttpAndDelete(Update(s, rec.(raw := rec.raw + RawOf(cfg, ev))), id)
  }

  function LoadingFailed(cfg: Config, s: State, ev: CdpEvent): State {
    var p, id := ev.params, ev.params.requestId;
    var known := id in s.httpRecords.vals;
    var current := if known then s.httpRecords.vals[id] else NewRecord(cfg, s.created, ev, "", "");
    var rec := current.(error := Some(HttpError(p.errorText, p.canceled)), raw := current.raw + RawOf(cfg, ev));
    EmitHttpAndDelete(if known then Update(s, rec) else PutNew(s, rec), id)
  }

  function OtherHttpEvent(cfg: Config, s: State, ev: CdpEvent): State {
    var id := ev.params.requestId;
    if cfg.raw && id in s.httpRecords.vals
    then Update(s, s.httpRecords.vals[id].(raw := s.httpRecords.vals[id].raw + [ev.message])) else s
  }

  function OnHttpEvent(cfg: Config, s: State, ev: CdpEvent): State {
    if !cfg.includeHttp || IsWebSocketEvent(ev) || ev.params.requestId == "" then s
    else if ev.name == "Network.requestWillBeSent" then RequestWillBeSent(cfg, s, ev)
    else if ev.name == "Network.requestWillBeSentExtraInfo" then RequestExtraInfo(cfg, s, ev)
    else if ev.name == "Network.responseReceived" then ResponseReceived(cfg, s, ev)
    else if ev.name == "Network.responseReceivedExtraInfo" then ResponseExtraInfo(cfg, s, ev)
    else if ev.name == "Network.loadingFinished" then LoadingFinished(cfg, s, ev)
    else if ev.name == "Network.loadingFailed" then LoadingFailed(cfg, s, ev)
    else OtherHttpEvent(cfg, s, ev)
  }

  /** A post-data fetch completes. */
  function PostFetched(s: State, requestId: string, postData: Option<string>): State {
    var done := s.(fetches := s.fetches - multiset{PostFetch(requestId)});
    if requestId !in s.httpRecords.vals || postData.None? then done
    else Update(done, s.httpRecords.vals[requestId].(postData := postData))
  }

  /** The record once its body fetch brought a body or an error text. */
  function WithBody(cfg: Config, rec: HttpRecord, message: Json, body: Option<string>, error: Option<string>): HttpRecord {
    var before := if rec.response.Some? then rec.response.value else NO_RESPONSE;
    rec.(response := Some(before.(body := OrElse(body, before.body),
                                  bodyError := if Truthy(error) then error else before.bodyError)),
         raw := if cfg.raw then rec.raw + [message] else rec.raw)
  }

  /** A body fetch completes. If the id is no longer in the map, nothing is emitted. */
  function BodyFetched(cfg: Config, s: State, requestId: string, message: Json,
                       body: Option<string>, error: Option<string>): State {
    var done := s.(fetches := s.fetches - multiset{BodyFetch(requestId, message)});
    if requestId !in s.httpRecords.vals then done
    else
      EmitHttpAndDelete(Update(done, WithBody(cfg, s.httpRecords.vals[requestId], message, body, error)), requestId)
  }

  // ---- WebSocket events ----

  /** `getWsConn` */
  function GetWsConn(s: State, requestId: string, targetId: Option<string>): ConnMeta {
    if requestId in s.wsConns then
      var conn := s.wsConns[requestId];
      if !Truthy(conn.targetId) && Truthy(targetId) then conn.(targetId := targetId) else conn
    else ConnMeta(targetId, None, false)
  }

  /** `isWsFilteredOut`, with the verdict it stores. */
  function Judge(cfg: Config, conn: ConnMeta): ConnMeta {
    if conn.filteredOut || cfg.urlIncludes == "" || !Truthy(conn.url) then conn
    else conn.(filteredOut := !Includes(conn.url.value, cfg.urlIncludes))
  }

  /** The kind of record an event that passed the filter leads to; "" for none. */
  function WsKind(name: string): string {
    if name == "Network.webSocketCreated" then "ws_created"
    else if name == "Network.webSocketWillSendHandshakeRequest" then "ws_handshake_request"
    else if name == "Network.webSocketHandshakeResponseReceived" then "ws_handshake_response"
    else if name == "Network.webSocketFrameSent" || name == "Network.webSocketFrameReceived" then "ws_frame"
    else if name == "Network.webSocketClosed" then "ws_closed"
    else if name == "Network.webSocketFrameError" then "ws_frame_error"
    else ""
  }

  /** The event's connection, once the event's target and URL are taken over. */
  function NamedConn(s: State, ev: CdpEvent): ConnMeta {
    var conn := GetWsConn(s, ev.params.requestId, ev.targetId);
    if ev.name == "Network.webSocketCreated" then conn.(url := OrElse(conn.url, ev.params.url))
    else if ev.params.url.Some? && !Truthy(conn.url) then conn.(url := ev.params.url)
    else conn
  }

  function OnWsEvent(cfg: Config, s: State, ev: CdpEvent): State {
    var id := ev.params.requestId;
    if !cfg.includeWs || !IsWebSocketEvent(ev) || id == "" then s
    else
      var judged := Judge(cfg, NamedConn(s, ev));
      var kept := s.(wsConns := s.wsConns[id := judged]);
      if judged.filteredOut || WsKind(ev.name) == "" then kept
      else
        var written := Write(kept, Ws(WsKind(ev.name), judged.targetId, id, judged.url));
        if ev.name == "Network.webSocketClosed" then written.(wsConns := written.wsConns - {id}) else written
  }

  // ---- messages and cleanup ----

  /** The target test of `onMsg`: an empty target id passes, since it is falsy. */
  predicate Admitted(cfg: Config, targetId: Option<string>) {
    cfg.allTargets || !Truthy(targetId) || targetId == Some(cfg.targetId)
  }

  /** Both handlers of an event, one after the other. */
  function OnEvent(cfg: Config, s: State, ev: CdpEvent): State {
    if Admitted(cfg, ev.targetId) then OnWsEvent(cfg, OnHttpEvent(cfg, s, ev), ev) else s
  }

  /** `onMsg` */
  function OnMsg(cfg: Config, s: State, message: Json): State {
    match Decode(message)
    case ParseErrorMsg(raw) => Write(s, StreamError(raw))
    case StatusMsg => Write(s, StatusRecord)
    case EventMsg(ev) => OnEvent(cfg, s, ev)
    case BadEventMsg(_) => s
    case OtherMsg => s
  }

  /** The messages on which `onMsg` throws, having changed nothing. */
  predicate ThrowsOn(cfg: Config, message: Json) {
    Decode(message).BadEventMsg? && Admitted(cfg, Decode(message).targetId) && (cfg.includeHttp || cfg.includeWs)
  }

  function EmitAll(s: State, ids: seq<string>): State
    decreases |ids|
  {
    if ids == [] then s else EmitAll(EmitHttpAndDelete(s, ids[0]), ids[1..])
  }

  /** `cleanup`, up to its first await: it raises the stop signal before it writes. */
  function Cleanup(s: State, reason: string): State {
    if s.cleaned then s
    else
      var stopped := s.(cleaned := true, stopReason := OrElse(s.stopReason, Some(reason)));
      Write(EmitAll(stopped, s.httpRecords.keys), Stopped(reason))
  }

  // ---- one step of the recorder ----

  datatype Input =
    | Received(message: Json)
    | PostArrives(requestId: string, postData: Option<string>)
    | BodyArrives(requestId: string, message: Json, body: Option<string>, error: Option<string>)
    | CleanupCalled(reason: string)
    | WriterCloses

  /** The reader hands messages over until the stop signal is raised, which aborts the read it waits on.
      A fetch completes once for each time it was started; the writer closes at the end of cleanup. */
  predicate Enabled(s: State, input: Input) {
    match input
    case Received(_) => s.stopReason == None
    case PostArrives(requestId, _) => PostFetch(requestId) in s.fetches
    case BodyArrives(requestId, message, _, _) => BodyFetch(requestId, message) in s.fetches
    case WriterCloses => s.cleaned
    case _ => true
  }

  function Step(cfg: Config, s: State, input: Input): State
    requires Enabled(s, input)
  {
    match input
    case Received(message) => OnMsg(cfg, s, message)
    case PostArrives(requestId, postData) => PostFetched(s, requestId, postData)
    case BodyArrives(requestId, message, body, error) => BodyFetched(cfg, s, requestId, message, body, error)
    case CleanupCalled(reason) => Cleanup(s, reason)
    case WriterCloses => s.(writerClosed := true)
  }
}
