/** What each message does to what is recorded, spelled out, and why each record was written. */
module RecorderEffects {
  import opened Prelude
  import opened Text
  import opened Json
  import opened JsTable
  import opened RecorderState
  import opened RecorderRuns

  // ---- which messages count ----

  /** An event of this name about some request or connection, of a target the recorder records: any with
      all targets, else its own, or one not told. */
  predicate Attended(cfg: Config, message: Json, name: string) {
    && Decode(message).EventMsg?
    && var ev := Decode(message).event;
       && ev.name == name && ev.params.requestId != ""
       && (cfg.allTargets || ev.targetId in [None, Some(""), Some(cfg.targetId)])
  }

  /** The same, of an HTTP event. */
  predicate AttendedHttp(cfg: Config, message: Json, name: string) {
    cfg.includeHttp && Attended(cfg, message, name) && !StartsWith(name, "Network.webSocket")
  }

  /** A browser target to ask: the event's, else the record's, else the recorder's own. */
  predicate SomeTarget(cfg: Config, event: Option<string>, record: Option<string>) {
    if event.Some? then event != Some("") else if record.Some? then record != Some("") else cfg.targetId != ""
  }

  predicate Passes(cfg: Config, url: string) { cfg.httpOnly ==> StartsWith(url, "http://") || StartsWith(url, "https://") }

  lemma OnlyHttp(cfg: Config, s: State, message: Json, name: string)
    requires AttendedHttp(cfg, message, name)
    ensures OnMsg(cfg, s, message) == OnHttpEvent(cfg, s, Decode(message).event)
  {
    var ev := Decode(message).event;
    assert OnMsg(cfg, s, message) == OnEvent(cfg, s, ev);
    assert OnWsEvent(cfg, OnHttpEvent(cfg, s, ev), ev) == OnHttpEvent(cfg, s, ev);
  }

  lemma NoWebSocket(name: string)
    requires |name| > 8 && name[8] != 'w'
    ensures !StartsWith(name, "Network.webSocket")
  {
    assert "Network.webSocket"[8] == 'w';
  }

  // ---- HTTP events ----

  /** A request makes a new record live under its id, with its target, URL and verb and nothing else, in the
      place of the id's record or last; its post data is asked for if it may have some and a target is
      known. */
  lemma RequestMakesRecord(cfg: Config, s: State, message: Json)
    requires cfg.includeHttp && Attended(cfg, message, "Network.requestWillBeSent")
    ensures var s', ev := OnMsg(cfg, s, message), Decode(message).event;
            var p, id := ev.params, ev.params.requestId;
            if !Passes(cfg, p.requestUrl) then s' == s
            else
              && s'.httpRecords.vals == s.httpRecords.vals[id :=
                   HttpRecord(s.created, ev.targetId, id, p.requestUrl, p.requestMethod, None, None, None, None, None,
                              if cfg.raw then [message] else [])]
              && s'.httpRecords.keys == (if id in s.httpRecords.vals then s.httpRecords.keys else s.httpRecords.keys + [id])
              && s'.fetches == s.fetches +
                   (if (p.hasPostData || Upper(p.requestMethod) !in ["GET", "HEAD"]) && SomeTarget(cfg, ev.targetId, None)
                    then multiset{PostFetch(id)} else multiset{})
              && s'.output == s.output && s'.wsConns == s.wsConns && s'.created == s.created + 1
  {
    NoWebSocket("Network.requestWillBeSent");
    OnlyHttp(cfg, s, message, "Network.requestWillBeSent");
    assert OnHttpEvent(cfg, s, Decode(message).event) == RequestWillBeSent(cfg, s, Decode(message).event);
    NewRecordIsBare(cfg, s.created, Decode(message).event);
    TargetKnown(cfg, Decode(message).event);
  }

  lemma NewRecordIsBare(cfg: Config, serial: nat, ev: CdpEvent)
    ensures forall url, verb ::
              NewRecord(cfg, serial, ev, url, verb) ==
              HttpRecord(serial, ev.targetId, ev.params.requestId, url, verb, None, None, None, None, None,
                         if cfg.raw then [ev.message] else [])
  {
  }

  lemma TargetKnown(cfg: Config, ev: CdpEvent)
    ensures Truthy(OrElse(ev.targetId, Some(cfg.targetId))) <==> SomeTarget(cfg, ev.targetId, None)
  {
  }

  /** Only the record under this id is different, and it is this one; nothing is written or asked for. */
  predicate OnlyRecord(s: State, s': State, id: string, rec: HttpRecord) {
    && s'.httpRecords.vals == s.httpRecords.vals[id := rec]
    && s'.httpRecords.keys == (if id in s.httpRecords.vals then s.httpRecords.keys else s.httpRecords.keys + [id])
    && s'.output == s.output && s'.fetches == s.fetches && s'.wsConns == s.wsConns
  }

  function RawIf(cfg: Config, message: Json): seq<Json> { if cfg.raw then [message] else [] }

  /** Extra request data is added to a live record, and lost without one. */
  lemma RequestExtraInfoAdds(cfg: Config, s: State, message: Json)
    requires RecordsMatch(s) && cfg.includeHttp && Attended(cfg, message, "Network.requestWillBeSentExtraInfo")
    ensures var s', p := OnMsg(cfg, s, message), Decode(message).event.params;
            if p.requestId !in s.httpRecords.vals then s' == s
            else
              var was := s.httpRecords.vals[p.requestId];
              OnlyRecord(s, s', p.requestId,
                         was.(headersExtraInfo := if p.headers.Some? then p.headers else was.headersExtraInfo,
                              extraInfo := Some(p.all), raw := was.raw + RawIf(cfg, message)))
  {
    NoWebSocket("Network.requestWillBeSentExtraInfo");
    OnlyHttp(cfg, s, message, "Network.requestWillBeSentExtraInfo");
    assert OnHttpEvent(cfg, s, Decode(message).event) == RequestExtraInfo(cfg, s, Decode(message).event);
  }

  /** A response sets URL and status on the live record and gives it a target if it has none, and leaves all
      that earlier events and fetches brought; without a live record it makes one. */
  lemma ResponseAdds(cfg: Config, s: State, message: Json)
    requires RecordsMatch(s) && cfg.includeHttp && Attended(cfg, message, "Network.responseReceived")
    ensures var s', ev := OnMsg(cfg, s, message), Decode(message).event;
            var p, id := ev.params, ev.params.requestId;
            if !Passes(cfg, p.responseUrl) then s' == s
            else if id !in s.httpRecords.vals then
              OnlyRecord(s, s', id, HttpRecord(s.created, ev.targetId, id, p.responseUrl, "", None, None, None,
                                               Some(HttpResponse(Some(p.responseUrl), p.status, None, None, None, None)),
                                               None, RawIf(cfg, message)))
            else
              var was := s.httpRecords.vals[id];
              var headers, extra := if was.response.Some? then was.response.value.headersExtraInfo else None,
                                    if was.response.Some? then was.response.value.extraInfo else None;
              var body, error := if was.response.Some? then was.response.value.body else None,
                                 if was.response.Some? then was.response.value.bodyError else None;
              OnlyRecord(s, s', id,
                         was.(targetId := if was.targetId.Some? then was.targetId else ev.targetId,
                              response := Some(HttpResponse(Some(p.responseUrl), p.status, headers, extra, body, error))))
  {
    NoWebSocket("Network.responseReceived");
    OnlyHttp(cfg, s, message, "Network.responseReceived");
    assert OnHttpEvent(cfg, s, Decode(message).event) == ResponseReceived(cfg, s, Decode(message).event);
  }

  /** Extra response data is added to a live record, whether or not its response has come, and lost without one. */
  lemma ResponseExtraInfoAdds(cfg: Config, s: State, message: Json)
    requires RecordsMatch(s) && cfg.includeHttp && Attended(cfg, message, "Network.responseReceivedExtraInfo")
    ensures var s', p := OnMsg(cfg, s, message), Decode(message).event.params;
            if p.requestId !in s.httpRecords.vals then s' == s
            else
              var was := s.httpRecords.vals[p.requestId];
              var before := if was.response.Some? then was.response.value else HttpResponse(None, None, None, None, None, None);
              OnlyRecord(s, s', p.requestId,
                         was.(response := Some(before.(headersExtraInfo := if p.headers.Some? then p.headers
                                                                           else before.headersExtraInfo,
                                                       extraInfo := Some(p.all))),
                              raw := was.raw + RawIf(cfg, message)))
  {
    NoWebSocket("Network.responseReceivedExtraInfo");
    OnlyHttp(cfg, s, message, "Network.responseReceivedExtraInfo");
    assert OnHttpEvent(cfg, s, Decode(message).event) == ResponseExtraInfo(cfg, s, Decode(message).event);
  }

  /** When loading has finished, the body is asked for if a target is known: one fetch is under way, and the
      record stays as it is until the fetch completes. Only without a target is the record written at once. */
  lemma FinishedAsksForBody(cfg: Config, s: State, message: Json)
    requires RecordsMatch(s) && cfg.includeHttp && Attended(cfg, message, "Network.loadingFinished")
    ensures var s', ev := OnMsg(cfg, s, message), Decode(message).event;
            var id := ev.params.requestId;
            if id !in s.httpRecords.vals then s' == s
            else
              var was := s.httpRecords.vals[id];
              if SomeTarget(cfg, ev.targetId, was.targetId)
              then s' == s.(fetches := s.fetches + multiset{BodyFetch(id, message)})
              else
                && s'.httpRecords.vals == s.httpRecords.vals - {id} && s'.fetches == s.fetches && s'.wsConns == s.wsConns
                && s'.output == s.output + (if s.writerClosed then [] else [Http(was.(raw := was.raw + RawIf(cfg, message)))])
  {
    NoWebSocket("Network.loadingFinished");
    OnlyHttp(cfg, s, message, "Network.loadingFinished");
    var ev := Decode(message).event;
    assert OnHttpEvent(cfg, s, ev) == LoadingFinished(cfg, s, ev);
    if ev.params.requestId in s.httpRecords.vals {
      var was := s.httpRecords.vals[ev.params.requestId];
      PutThenEmit(s, was.(raw := was.raw + RawIf(cfg, message)));
    }
  }

  /** A record put in the map and emitted at once. */
  lemma PutThenEmit(s: State, rec: HttpRecord)
    ensures var s', id := EmitHttpAndDelete(Update(s, rec), rec.requestId), rec.requestId;
            && s'.httpRecords.vals == s.httpRecords.vals - {id}
            && s'.output == s.output + (if s.writerClosed then [] else [Http(rec)])
            && s'.fetches == s.fetches && s'.wsConns == s.wsConns
    ensures var s', id := EmitHttpAndDelete(PutNew(s, rec), rec.requestId), rec.requestId;
            && s'.httpRecords.vals == s.httpRecords.vals - {id}
            && s'.output == s.output + (if s.writerClosed then [] else [Http(rec)])
            && s'.fetches == s.fetches && s'.wsConns == s.wsConns
  {
  }

  /** A failure writes the record at once, the live one or one made for it, with its error and nothing else new. */
  lemma FailureEndsRecord(cfg: Config, s: State, message: Json)
    requires RecordsMatch(s) && cfg.includeHttp && Attended(cfg, message, "Network.loadingFailed")
    ensures var s', ev := OnMsg(cfg, s, message), Decode(message).event;
            var p, id := ev.params, ev.params.requestId;
            var was := if id in s.httpRecords.vals then s.httpRecords.vals[id]
                       else HttpRecord(s.created, ev.targetId, id, "", "", None, None, None, None, None, RawIf(cfg, message));
            && s'.httpRecords.vals == s.httpRecords.vals - {id} && s'.fetches == s.fetches && s'.wsConns == s.wsConns
            && s'.output == s.output +
                 (if s.writerClosed then []
                  else [Http(was.(error := Some(HttpError(p.errorText, p.canceled)), raw := was.raw + RawIf(cfg, message)))])
  {
    FailureIsHandled(cfg, s, message);
    FailureEnds(cfg, s, Decode(message).event);
    assert RawOf(cfg, Decode(message).event) == RawIf(cfg, message);
  }

  lemma FailureIsHandled(cfg: Config, s: State, message: Json)
    requires cfg.includeHttp && Attended(cfg, message, "Network.loadingFailed")
    ensures OnMsg(cfg, s, message) == LoadingFailed(cfg, s, Decode(message).event)
  {
    NoWebSocket("Network.loadingFailed");
    OnlyHttp(cfg, s, message, "Network.loadingFailed");
  }

  lemma FailureEnds(cfg: Config, s: State, ev: CdpEvent)
    requires RecordsMatch(s)
    ensures var s', p, id := LoadingFailed(cfg, s, ev), ev.params, ev.params.requestId;
            var was := if id in s.httpRecords.vals then s.httpRecords.vals[id]
                       else HttpRecord(s.created, ev.targetId, id, "", "", None, None, None, None, None, RawOf(cfg, ev));
            && s'.httpRecords.vals == s.httpRecords.vals - {id} && s'.fetches == s.fetches && s'.wsConns == s.wsConns
            && s'.output == s.output +
                 (if s.writerClosed then []
                  else [Http(was.(error := Some(HttpError(p.errorText, p.canceled)), raw := was.raw + RawOf(cfg, ev)))])
  {
    var p, id := ev.params, ev.params.requestId;
    var was := if id in s.httpRecords.vals then s.httpRecords.vals[id]
               else HttpRecord(s.created, ev.targetId, id, "", "", None, None, None, None, None, RawOf(cfg, ev));
    PutThenEmit(s, was.(error := Some(HttpError(p.errorText, p.canceled)), raw := was.raw + RawOf(cfg, ev)));
  }

  predicate IsHttpKind(name: string) {
    name in ["Network.requestWillBeSent", "Network.requestWillBeSentExtraInfo", "Network.responseReceived",
             "Network.responseReceivedExtraInfo", "Network.loadingFinished", "Network.loadingFailed"]
  }

  /** Any other event leaves at most its raw message on the live record. */
  lemma OtherEventsLeaveRaw(cfg: Config, s: State, message: Json, name: string)
    requires RecordsMatch(s) && AttendedHttp(cfg, message, name) && !IsHttpKind(name)
    ensures var s', id := OnMsg(cfg, s, message), Decode(message).event.params.requestId;
            if id !in s.httpRecords.vals || !cfg.raw then s' == s
            else OnlyRecord(s, s', id, s.httpRecords.vals[id].(raw := s.httpRecords.vals[id].raw + [message]))
  {
    OnlyHttp(cfg, s, message, name);
    assert OnHttpEvent(cfg, s, Decode(message).event) == OtherHttpEvent(cfg, s, Decode(message).event);
  }

  /** Post data, when it comes, is set on the record then live under the id. */
  lemma PostDataIsSet(s: State, requestId: string, postData: Option<string>)
    requires RecordsMatch(s)
    ensures var s', fetches := PostFetched(s, requestId, postData), s.fetches - multiset{PostFetch(requestId)};
            if requestId !in s.httpRecords.vals || postData == None then s' == s.(fetches := fetches)
            else OnlyRecord(s.(fetches := fetches), s', requestId, s.httpRecords.vals[requestId].(postData := postData))
  {
  }

  /** A body, or the error its fetch brought, completes the record then live under the id, which is written. */
  lemma BodyEndsRecord(cfg: Config, s: State, requestId: string, message: Json, body: Option<string>, error: Option<string>)
    requires RecordsMatch(s)
    ensures var s', fetches := BodyFetched(cfg, s, requestId, message, body, error), s.fetches - multiset{BodyFetch(requestId, message)};
            if requestId !in s.httpRecords.vals then s' == s.(fetches := fetches)
            else
              var was := s.httpRecords.vals[requestId];
              var before := if was.response.Some? then was.response.value else HttpResponse(None, None, None, None, None, None);
              var after := before.(body := if body.Some? then body else before.body,
                                   bodyError := if error.Some? && error != Some("") then error else before.bodyError);
              && s'.httpRecords.vals == s.httpRecords.vals - {requestId} && s'.fetches == fetches && s'.wsConns == s.wsConns
              && s'.output == s.output +
                   (if s.writerClosed then []
                    else [Http(was.(response := Some(after), raw := was.raw + RawIf(cfg, message)))])
  {
    if requestId in s.httpRecords.vals {
      var done := s.(fetches := s.fetches - multiset{BodyFetch(requestId, message)});
      PutThenEmit(done, WithBody(cfg, s.httpRecords.vals[requestId], message, body, error));
      BodyIsAdded(cfg, s.httpRecords.vals[requestId], message, body, error);
    }
  }

  lemma BodyIsAdded(cfg: Config, was: HttpRecord, message: Json, body: Option<string>, error: Option<string>)
    ensures var before := if was.response.Some? then was.response.value else HttpResponse(None, None, None, None, None, None);
            var after := before.(body := if body.Some? then body else before.body,
                                 bodyError := if error.Some? && error != Some("") then error else before.bodyError);
            WithBody(cfg, was, message, body, error) == was.(response := Some(after), raw := was.raw + RawIf(cfg, message))
  {
  }

  /** The verb is compared without regard to case. */
  lemma UpperFolds(s: string, i: nat)
    requires i < |s|
    ensures |Upper(s)| == |s|
    ensures Upper(s)[i] == if 'a' <= s[i] <= 'z' then (s[i] as int - 'a' as int + 'A' as int) as char else s[i]
  {
  }

  // ---- other messages ----

  /** A parse error and a status are recorded; a message that is neither these nor an attended event is not. */
  lemma OtherMessages(cfg: Config, s: State, message: Json)
    requires !s.writerClosed
    ensures Prop(message, "method") == Some(JString("sse_parse_error")) ==>
              OnMsg(cfg, s, message) == s.(output := s.output + [StreamError(Prop(message, "raw"))])
    ensures Prop(message, "method") == Some(JString("status")) ==>
              OnMsg(cfg, s, message) == s.(output := s.output + [StatusRecord])
    ensures Prop(message, "method") !in [Some(JString("sse_parse_error")), Some(JString("status")), Some(JString("forwardCDPEvent"))] ==>
              OnMsg(cfg, s, message) == s
    ensures Decode(message).EventMsg? && !Attended(cfg, message, Decode(message).event.name) ==> OnMsg(cfg, s, message) == s
  {
  }

  // ---- WebSocket events ----

  /** The record an event on an admitted connection leads to, by the event's name. */
  function KindOf(name: string): Option<string> {
    match name
    case "Network.webSocketCreated" => Some("ws_created")
    case "Network.webSocketWillSendHandshakeRequest" => Some("ws_handshake_request")
    case "Network.webSocketHandshakeResponseReceived" => Some("ws_handshake_response")
    case "Network.webSocketFrameSent" => Some("ws_frame")
    case "Network.webSocketFrameReceived" => Some("ws_frame")
    case "Network.webSocketClosed" => Some("ws_closed")
    case "Network.webSocketFrameError" => Some("ws_frame_error")
    case _ => None
  }

  predicate Blank(t: Option<string>) { t == None || t == Some("") }

  /** An event on a connection: the connection takes over a target and a URL it lacks; unless it was, or is now,
      filtered out by its URL, exactly one record of the event's kind is written, with target and URL, and
      a close forgets the connection. */
  lemma ConnectionEvent(cfg: Config, s: State, message: Json, name: string)
    requires cfg.includeWs && Attended(cfg, message, name) && StartsWith(name, "Network.webSocket") && !s.writerClosed
    ensures var s', ev := OnMsg(cfg, s, message), Decode(message).event;
            var id := ev.params.requestId;
            var was := if id in s.wsConns then s.wsConns[id] else ConnMeta(ev.targetId, None, false);
            var target := if Blank(was.targetId) && !Blank(ev.targetId) then ev.targetId else was.targetId;
            var url := if (if name == "Network.webSocketCreated" then was.url == None else Blank(was.url)) && ev.params.url.Some?
                       then ev.params.url else was.url;
            var out := was.filteredOut || (cfg.urlIncludes != "" && !Blank(url) && !Includes(url.value, cfg.urlIncludes));
            var conns := s.wsConns[id := ConnMeta(target, url, out)];
            && s'.httpRecords == s.httpRecords && s'.fetches == s.fetches
            && s'.output == s.output + (if out || KindOf(name) == None then [] else [Ws(KindOf(name).value, target, id, url)])
            && s'.wsConns == if !out && name == "Network.webSocketClosed" then conns - {id} else conns
  {
    var ev := Decode(message).event;
    assert OnHttpEvent(cfg, s, ev) == s;
    assert OnMsg(cfg, s, message) == OnWsEvent(cfg, s, ev);
    KindsAgree(name);
    ConnJudged(cfg, s, ev);
    ConnStored(cfg, s, ev, Judge(cfg, NamedConn(s, ev)));
  }

  lemma ConnStored(cfg: Config, s: State, ev: CdpEvent, conn: ConnMeta)
    requires cfg.includeWs && IsWebSocketEvent(ev) && ev.params.requestId != "" && !s.writerClosed
    requires conn == Judge(cfg, NamedConn(s, ev))
    ensures var s', id := OnWsEvent(cfg, s, ev), ev.params.requestId;
            && s'.httpRecords == s.httpRecords && s'.fetches == s.fetches
            && s'.output == s.output +
                 (if conn.filteredOut || WsKind(ev.name) == "" then [] else [Ws(WsKind(ev.name), conn.targetId, id, conn.url)])
            && s'.wsConns ==
                 if !conn.filteredOut && ev.name == "Network.webSocketClosed" then s.wsConns[id := conn] - {id}
                 else s.wsConns[id := conn]
  {
  }

  lemma KindsAgree(name: string)
    ensures WsKind(name) == if KindOf(name).Some? then KindOf(name).value else ""
    ensures KindOf(name).Some? ==> KindOf(name).value != ""
  {
  }

  lemma ConnJudged(cfg: Config, s: State, ev: CdpEvent)
    ensures var id := ev.params.requestId;
            var was := if id in s.wsConns then s.wsConns[id] else ConnMeta(ev.targetId, None, false);
            var target := if Blank(was.targetId) && !Blank(ev.targetId) then ev.targetId else was.targetId;
            var url := if (if ev.name == "Network.webSocketCreated" then was.url == None else Blank(was.url)) && ev.params.url.Some?
                       then ev.params.url else was.url;
            Judge(cfg, NamedConn(s, ev)) ==
              ConnMeta(target, url, was.filteredOut || (cfg.urlIncludes != "" && !Blank(url) && !Includes(url.value, cfg.urlIncludes)))
  {
  }

  // ---- why each fetch was started and each record written ----

  /** The input started this fetch. */
  predicate Starts(cfg: Config, input: Input, f: Fetch) {
    && input.Received? && cfg.includeHttp
    && match f
       case BodyFetch(id, message) =>
         && input.message == message && Attended(cfg, message, "Network.loadingFinished")
         && Decode(message).event.params.requestId == id
       case PostFetch(id) =>
         Attended(cfg, input.message, "Network.requestWillBeSent") && Decode(input.message).event.params.requestId == id
  }

  lemma EventStarts(cfg: Config, s: State, message: Json, f: Fetch)
    requires Decode(message).EventMsg? && f in OnMsg(cfg, s, message).fetches && f !in s.fetches
    ensures Starts(cfg, Received(message), f)
  {
    var ev := Decode(message).event;
    assert OnMsg(cfg, s, message) == OnEvent(cfg, s, ev);
    WsKeepsFetches(cfg, OnHttpEvent(cfg, s, ev), ev);
    HttpStarts(cfg, s, ev, f);
  }

  lemma WsKeepsFetches(cfg: Config, s: State, ev: CdpEvent)
    ensures OnWsEvent(cfg, s, ev).fetches == s.fetches
  {
  }

  lemma HttpStarts(cfg: Config, s: State, ev: CdpEvent, f: Fetch)
    requires f in OnHttpEvent(cfg, s, ev).fetches && f !in s.fetches
    ensures cfg.includeHttp && ev.params.requestId != "" && f.requestId == ev.params.requestId
    ensures if f.BodyFetch? then ev.name == "Network.loadingFinished" && f.message == ev.message
            else ev.name == "Network.requestWillBeSent"
  {
    if ev.name != "Network.loadingFinished" && ev.name != "Network.requestWillBeSent" {
      ExtrasStartNothing(cfg, s, ev);
      assert false;
    }
  }

  lemma ExtrasStartNothing(cfg: Config, s: State, ev: CdpEvent)
    requires ev.name != "Network.loadingFinished" && ev.name != "Network.requestWillBeSent"
    ensures OnHttpEvent(cfg, s, ev).fetches == s.fetches
  {
    assert LoadingFailed(cfg, s, ev).fetches == s.fetches;
    assert ResponseReceived(cfg, s, ev).fetches == s.fetches;
  }

  lemma StepStarts(cfg: Config, s: State, input: Input, f: Fetch)
    requires Enabled(s, input) && f in Step(cfg, s, input).fetches && f !in s.fetches
    ensures Starts(cfg, input, f)
  {
    match input
    case Received(message) =>
      if Decode(message).EventMsg? {
        EventStarts(cfg, s, message, f);
      }
    case CleanupCalled(reason) =>
      CleanupStartsNothing(s, reason);
      assert false;
    case PostArrives(requestId, postData) =>
      FetchesEnd(cfg, s, requestId, JNull, postData, None, None);
      assert false;
    case BodyArrives(requestId, message, body, error) =>
      FetchesEnd(cfg, s, requestId, message, None, body, error);
      assert false;
    case WriterCloses => assert false;
  }

  lemma CleanupStartsNothing(s: State, reason: string)
    ensures Cleanup(s, reason).fetches == s.fetches
  {
    EmitAllKeeps(s.(cleaned := true, stopReason := OrElse(s.stopReason, Some(reason))), s.httpRecords.keys);
  }

  lemma FetchesEnd(cfg: Config, s: State, requestId: string, message: Json, postData: Option<string>,
                   body: Option<string>, error: Option<string>)
    ensures PostFetched(s, requestId, postData).fetches <= s.fetches
    ensures BodyFetched(cfg, s, requestId, message, body, error).fetches <= s.fetches
  {
  }

  /** Every fetch under way was started by an event received before. */
  lemma {:induction false} FetchesAreStarted(cfg: Config, states: seq<State>, inputs: seq<Input>, n: nat, f: Fetch)
    returns (j: nat)
    requires IsRun(cfg, states, inputs) && n < |states| && f in states[n].fetches
    ensures j < n && Starts(cfg, inputs[j], f)
  {
    if n == 0 {
      assert false;
    } else if f in states[n - 1].fetches {
      j := FetchesAreStarted(cfg, states, inputs, n - 1, f);
    } else {
      assert Enabled(states[n - 1], inputs[n - 1]);
      StepStarts(cfg, states[n - 1], inputs[n - 1], f);
      j := n - 1;
    }
  }

  /** Why the step wrote this HTTP record. */
  predicate WrittenFor(cfg: Config, s: State, input: Input, rec: HttpRecord) {
    match input
    case Received(message) =>
      && cfg.includeHttp && Decode(message).EventMsg? && Decode(message).event.params.requestId == rec.requestId
      && var ev := Decode(message).event;
         || (Attended(cfg, message, "Network.loadingFailed")
             && rec.error == Some(HttpError(ev.params.errorText, ev.params.canceled)))
         || (Attended(cfg, message, "Network.loadingFinished") && Blank(ev.targetId))
    case BodyArrives(requestId, _, body, _) =>
      rec.requestId == requestId && rec.response.Some? && (body.Some? ==> rec.response.value.body == body)
    case CleanupCalled(_) => !s.cleaned
    case PostArrives(_, _) => false
    case WriterCloses => false
  }

  lemma HttpWrites(cfg: Config, s: State, ev: CdpEvent, i: nat)
    requires RecordsMatch(s) && |s.output| <= i < |OnHttpEvent(cfg, s, ev).output|
    ensures var r := OnHttpEvent(cfg, s, ev).output[i];
            && cfg.includeHttp && ev.params.requestId != "" && r.Http? && r.record.requestId == ev.params.requestId
            && ((ev.name == "Network.loadingFailed" && r.record.error == Some(HttpError(ev.params.errorText, ev.params.canceled)))
                || (ev.name == "Network.loadingFinished" && Blank(ev.targetId)))
  {
    var attended := cfg.includeHttp && !IsWebSocketEvent(ev) && ev.params.requestId != "";
    if ev.name == "Network.loadingFinished" {
      assert OnHttpEvent(cfg, s, ev) == if attended then LoadingFinished(cfg, s, ev) else s;
      FinishedWrites(cfg, s, ev);
    } else if ev.name == "Network.loadingFailed" {
      assert OnHttpEvent(cfg, s, ev) == if attended then LoadingFailed(cfg, s, ev) else s;
      FailedWrites(cfg, s, ev);
    } else {
      OthersWriteNothing(cfg, s, ev);
      assert false;
    }
  }

  lemma ExtrasWriteNothing(cfg: Config, s: State, ev: CdpEvent)
    ensures RequestWillBeSent(cfg, s, ev).output == s.output == ResponseReceived(cfg, s, ev).output
    ensures RequestExtraInfo(cfg, s, ev).output == s.output == ResponseExtraInfo(cfg, s, ev).output
    ensures OtherHttpEvent(cfg, s, ev).output == s.output
  {
  }

  lemma OthersWriteNothing(cfg: Config, s: State, ev: CdpEvent)
    requires ev.name != "Network.loadingFinished" && ev.name != "Network.loadingFailed"
    ensures OnHttpEvent(cfg, s, ev).output == s.output
  {
    ExtrasWriteNothing(cfg, s, ev);
  }

  lemma FinishedWrites(cfg: Config, s: State, ev: CdpEvent)
    requires RecordsMatch(s)
    ensures var s' := LoadingFinished(cfg, s, ev);
            && |s'.output| <= |s.output| + 1
            && (|s'.output| > |s.output| ==>
                  s'.output[|s.output|].Http? && s'.output[|s.output|].record.requestId == ev.params.requestId && Blank(ev.targetId))
  {
  }

  lemma FailedWrites(cfg: Config, s: State, ev: CdpEvent)
    requires RecordsMatch(s)
    ensures var s' := LoadingFailed(cfg, s, ev);
            && |s'.output| <= |s.output| + 1
            && (|s'.output| > |s.output| ==>
                  && s'.output[|s.output|].Http? && s'.output[|s.output|].record.requestId == ev.params.requestId
                  && s'.output[|s.output|].record.error == Some(HttpError(ev.params.errorText, ev.params.canceled)))
  {
  }

  lemma EventWrites(cfg: Config, s: State, message: Json, i: nat)
    requires RecordsMatch(s) && |s.output| <= i < |OnMsg(cfg, s, message).output| && OnMsg(cfg, s, message).output[i].Http?
    ensures WrittenFor(cfg, s, Received(message), OnMsg(cfg, s, message).output[i].record)
  {
    var ev := Decode(message).event;
    var mid := OnHttpEvent(cfg, s, ev);
    WsTouchesNoRecord(cfg, mid, ev);
    assert OnMsg(cfg, s, message) == OnWsEvent(cfg, mid, ev);
    assert i < |mid.output| && mid.output[i] == OnMsg(cfg, s, message).output[i];
    HttpWrites(cfg, s, ev, i);
  }

  lemma StepWrites(cfg: Config, s: State, input: Input, i: nat)
    requires Books(s) && Enabled(s, input)
    requires |s.output| <= i < |Step(cfg, s, input).output| && Step(cfg, s, input).output[i].Http?
    ensures WrittenFor(cfg, s, input, Step(cfg, s, input).output[i].record)
  {
    match input
    case Received(message) => EventWrites(cfg, s, message, i);
    case BodyArrives(requestId, message, body, error) => BodyEndsRecord(cfg, s, requestId, message, body, error);
    case CleanupCalled(_) =>
    case PostArrives(_, _) => assert false;
    case WriterCloses => assert false;
  }

  /** Every HTTP record in the output was written by one input of the run: by a failure, with its error; by a
      body fetch completing, which an earlier `loadingFinished` of its request started; by a
      `loadingFinished` without a target to ask; or by the first cleanup. */
  lemma {:induction false} WrittenForACause(cfg: Config, states: seq<State>, inputs: seq<Input>, n: nat, i: nat)
    returns (k: nat)
    requires IsRun(cfg, states, inputs) && n < |states| && i < |states[n].output| && states[n].output[i].Http?
    ensures k < n && |states[k].output| <= i && WrittenFor(cfg, states[k], inputs[k], states[n].output[i].record)
    ensures inputs[k].BodyArrives? ==>
              exists j :: 0 <= j < k && Starts(cfg, inputs[j], BodyFetch(inputs[k].requestId, inputs[k].message))
  {
    if n == 0 {
      assert false;
    } else if i < |states[n - 1].output| {
      OutputGrows(cfg, states, inputs, n - 1, n);
      k := WrittenForACause(cfg, states, inputs, n - 1, i);
    } else {
      k := n - 1;
      RunBooks(cfg, states, inputs, k);
      assert Enabled(states[k], inputs[k]);
      StepWrites(cfg, states[k], inputs[k], i);
      if inputs[k].BodyArrives? {
        var j := FetchesAreStarted(cfg, states, inputs, k, BodyFetch(inputs[k].requestId, inputs[k].message));
      }
    }
  }

  /** So if every event names its target, a record written before cleanup has failed, or was written when the
      fetch of its body completed. */
  lemma OrdinaryRecordsHadTheirBodyFetched(cfg: Config, states: seq<State>, inputs: seq<Input>, n: nat, i: nat)
    returns (k: nat)
    requires IsRun(cfg, states, inputs) && n < |states| && !states[n].cleaned
    requires i < |states[n].output| && states[n].output[i].Http?
    requires forall j :: 0 <= j < n && inputs[j].Received? && Decode(inputs[j].message).EventMsg? ==>
               !Blank(Decode(inputs[j].message).event.targetId)
    ensures k < n
    ensures states[n].output[i].record.error.Some? ||
            (&& inputs[k].BodyArrives? && inputs[k].requestId == states[n].output[i].record.requestId
             && exists j :: 0 <= j < k && Starts(cfg, inputs[j], BodyFetch(inputs[k].requestId, inputs[k].message)))
  {
    k := WrittenForACause(cfg, states, inputs, n, i);
    CleanedByCall(cfg, states, inputs, n);
  }
}
