/** What the recorder lets through: targets, HTTP URLs and WebSocket URLs, over whole runs. */
module RecorderFilters {
  import opened Prelude
  import opened Text
  import opened Json
  import Messages
  import opened RecorderState
  import opened RecorderRuns

  // ---- confinement ----

  /** How exactly targets are known: each names one, some may lack one, or some may be the empty string. */
  datatype Leeway = Exact | MayLack | MayBeBlank

  /** A record's target is an admitted one, within the leeway. */
  predicate TargetOk(cfg: Config, leeway: Leeway, t: Option<string>) {
    if t == None then !leeway.Exact?
    else cfg.allTargets || t == Some(cfg.targetId) || (leeway.MayBeBlank? && t == Some(""))
  }

  /** The event's own target is within the leeway. */
  predicate NamesTarget(leeway: Leeway, t: Option<string>) {
    match leeway
    case Exact => Truthy(t)
    case MayLack => t != Some("")
    case MayBeBlank => true
  }

  predicate LiveUrlOk(cfg: Config, rec: HttpRecord) { cfg.httpOnly ==> IsHttpUrl(rec.url) }

  /** A written record's URL is an HTTP one, or empty on a record that carries an error. */
  predicate WrittenUrlOk(cfg: Config, rec: HttpRecord) {
    cfg.httpOnly ==> IsHttpUrl(rec.url) || (rec.url == "" && rec.error.Some?)
  }

  predicate WsUrlOk(cfg: Config, url: Option<string>) { !Truthy(url) || Includes(url.value, cfg.urlIncludes) }

  ghost predicate OutOk(cfg: Config, leeway: Leeway, r: OutRecord) {
    match r
    case Http(rec) => TargetOk(cfg, leeway, rec.targetId) && WrittenUrlOk(cfg, rec)
    case Ws(_, targetId, _, url) => TargetOk(cfg, leeway, targetId) && WsUrlOk(cfg, url)
    case _ => true
  }

  ghost predicate LiveOk(cfg: Config, leeway: Leeway, rec: HttpRecord) {
    TargetOk(cfg, leeway, rec.targetId) && LiveUrlOk(cfg, rec)
  }

  /** A connection filtered out has a URL, and it lacks the required text. */
  ghost predicate ConnOk(cfg: Config, leeway: Leeway, conn: ConnMeta) {
    && TargetOk(cfg, leeway, conn.targetId)
    && (conn.filteredOut ==> Truthy(conn.url) && !Includes(conn.url.value, cfg.urlIncludes))
  }

  ghost predicate Confined(cfg: Config, leeway: Leeway, s: State) {
    && (forall k :: k in s.httpRecords.vals ==>
          s.httpRecords.vals[k].requestId == k && LiveOk(cfg, leeway, s.httpRecords.vals[k]))
    && (forall k :: k in s.wsConns ==> ConnOk(cfg, leeway, s.wsConns[k]))
    && (forall i :: 0 <= i < |s.output| ==> OutOk(cfg, leeway, s.output[i]))
  }

  lemma PutConfined(cfg: Config, leeway: Leeway, s: State, rec: HttpRecord)
    requires Confined(cfg, leeway, s) && LiveOk(cfg, leeway, rec)
    ensures Confined(cfg, leeway, PutNew(s, rec)) && Confined(cfg, leeway, Update(s, rec))
  {
  }

  /** A record emitted as soon as it is put in the map need only be fit for the output. */
  lemma PutAndEmitConfined(cfg: Config, leeway: Leeway, s: State, rec: HttpRecord)
    requires Confined(cfg, leeway, s) && OutOk(cfg, leeway, Http(rec))
    ensures Confined(cfg, leeway, EmitHttpAndDelete(PutNew(s, rec), rec.requestId))
    ensures Confined(cfg, leeway, EmitHttpAndDelete(Update(s, rec), rec.requestId))
  {
  }

  lemma EmptyPrefix(s: string)
    requires s == ""
    ensures StartsWith(s, "") && forall t: string :: Includes(t, s)
  {
    forall t: string
      ensures Includes(t, s)
    {
      assert StartsWith(t[0..], s);
    }
  }

  ghost predicate EventFits(cfg: Config, leeway: Leeway, ev: CdpEvent) {
    && (!cfg.allTargets && Truthy(ev.targetId) ==> ev.targetId == Some(cfg.targetId))
    && NamesTarget(leeway, ev.targetId)
  }

  lemma SentConfined(cfg: Config, leeway: Leeway, s: State, ev: CdpEvent)
    requires Confined(cfg, leeway, s) && EventFits(cfg, leeway, ev)
    ensures Confined(cfg, leeway, RequestWillBeSent(cfg, s, ev))
  {
    if !cfg.httpOnly || IsHttpUrl(ev.params.requestUrl) {
      PutConfined(cfg, leeway, s, NewRecord(cfg, s.created, ev, ev.params.requestUrl, ev.params.requestMethod));
    }
  }

  lemma ResponseConfined(cfg: Config, leeway: Leeway, s: State, ev: CdpEvent)
    requires Confined(cfg, leeway, s) && EventFits(cfg, leeway, ev)
    ensures Confined(cfg, leeway, ResponseReceived(cfg, s, ev))
  {
    var s' := ResponseReceived(cfg, s, ev);
    if !cfg.httpOnly || IsHttpUrl(ev.params.responseUrl) {
      PutConfined(cfg, leeway, s, s'.httpRecords.vals[ev.params.requestId]);
    }
  }

  lemma ExtraConfined(cfg: Config, leeway: Leeway, s: State, ev: CdpEvent)
    requires Confined(cfg, leeway, s)
    ensures Confined(cfg, leeway, RequestExtraInfo(cfg, s, ev))
    ensures Confined(cfg, leeway, ResponseExtraInfo(cfg, s, ev))
    ensures Confined(cfg, leeway, OtherHttpEvent(cfg, s, ev))
  {
    var id := ev.params.requestId;
    if id in s.httpRecords.vals {
      PutConfined(cfg, leeway, s, RequestExtraInfo(cfg, s, ev).httpRecords.vals[id]);
      PutConfined(cfg, leeway, s, ResponseExtraInfo(cfg, s, ev).httpRecords.vals[id]);
      PutConfined(cfg, leeway, s, OtherHttpEvent(cfg, s, ev).httpRecords.vals[id]);
    }
  }

  lemma PostConfined(cfg: Config, leeway: Leeway, s: State, requestId: string, postData: Option<string>)
    requires Confined(cfg, leeway, s)
    ensures Confined(cfg, leeway, PostFetched(s, requestId, postData))
  {
    if requestId in s.httpRecords.vals {
      PutConfined(cfg, leeway, s.(fetches := s.fetches - multiset{PostFetch(requestId)}),
                  s.httpRecords.vals[requestId].(postData := postData));
    }
  }

  lemma FinishedConfined(cfg: Config, leeway: Leeway, s: State, ev: CdpEvent)
    requires Confined(cfg, leeway, s)
    ensures Confined(cfg, leeway, LoadingFinished(cfg, s, ev))
  {
    var id := ev.params.requestId;
    if id in s.httpRecords.vals {
      var rec := s.httpRecords.vals[id];
      PutAndEmitConfined(cfg, leeway, s, rec.(raw := rec.raw + RawOf(cfg, ev)));
    }
  }

  lemma FailedConfined(cfg: Config, leeway: Leeway, s: State, ev: CdpEvent)
    requires Confined(cfg, leeway, s) && EventFits(cfg, leeway, ev)
    ensures Confined(cfg, leeway, LoadingFailed(cfg, s, ev))
  {
    var id := ev.params.requestId;
    var current := if id in s.httpRecords.vals then s.httpRecords.vals[id] else NewRecord(cfg, s.created, ev, "", "");
    var rec := current.(error := Some(HttpError(ev.params.errorText, ev.params.canceled)),
                        raw := current.raw + RawOf(cfg, ev));
    PutAndEmitConfined(cfg, leeway, s, rec);
  }

  lemma BodyConfined(cfg: Config, leeway: Leeway, s: State, requestId: string, message: Json,
                     body: Option<string>, error: Option<string>)
    requires Confined(cfg, leeway, s)
    ensures Confined(cfg, leeway, BodyFetched(cfg, s, requestId, message, body, error))
  {
    if requestId in s.httpRecords.vals {
      PutAndEmitConfined(cfg, leeway, s.(fetches := s.fetches - multiset{BodyFetch(requestId, message)}),
                         WithBody(cfg, s.httpRecords.vals[requestId], message, body, error));
    }
  }

  /** A connection's verdict fits its URL, and is never taken back. */
  lemma JudgeConfined(cfg: Config, leeway: Leeway, conn: ConnMeta)
    requires ConnOk(cfg, leeway, conn)
    ensures ConnOk(cfg, leeway, Judge(cfg, conn))
    ensures Judge(cfg, conn).url == conn.url && (!Judge(cfg, conn).filteredOut ==> WsUrlOk(cfg, conn.url))
  {
    if cfg.urlIncludes == "" {
      EmptyPrefix(cfg.urlIncludes);
    }
  }

  lemma WsConfined(cfg: Config, leeway: Leeway, s: State, ev: CdpEvent)
    requires Confined(cfg, leeway, s) && EventFits(cfg, leeway, ev)
    ensures Confined(cfg, leeway, OnWsEvent(cfg, s, ev))
  {
    if cfg.includeWs && IsWebSocketEvent(ev) && ev.params.requestId != "" {
      var judged := Judge(cfg, NamedConn(s, ev));
      NamedConfined(cfg, leeway, s, ev);
      JudgeConfined(cfg, leeway, NamedConn(s, ev));
      RecordConfined(cfg, leeway, s, ev.params.requestId, judged, WsKind(ev.name));
    }
  }

  lemma NamedConfined(cfg: Config, leeway: Leeway, s: State, ev: CdpEvent)
    requires Confined(cfg, leeway, s) && EventFits(cfg, leeway, ev)
    ensures ConnOk(cfg, leeway, NamedConn(s, ev))
  {
  }

  lemma RecordConfined(cfg: Config, leeway: Leeway, s: State, id: string, conn: ConnMeta, kind: string)
    requires Confined(cfg, leeway, s) && ConnOk(cfg, leeway, conn)
    ensures var kept := s.(wsConns := s.wsConns[id := conn]);
            && Confined(cfg, leeway, kept)
            && (WsUrlOk(cfg, conn.url) ==>
                  var written := Write(kept, Ws(kind, conn.targetId, id, conn.url));
                  Confined(cfg, leeway, written) && Confined(cfg, leeway, written.(wsConns := written.wsConns - {id})))
  {
  }

  lemma KindConfined(cfg: Config, leeway: Leeway, s: State, ev: CdpEvent, r: State)
    requires Confined(cfg, leeway, s) && EventFits(cfg, leeway, ev) && OneKind(cfg, s, ev, r)
    ensures Confined(cfg, leeway, r)
  {
    SentConfined(cfg, leeway, s, ev);
    ResponseConfined(cfg, leeway, s, ev);
    ExtraConfined(cfg, leeway, s, ev);
    FinishedConfined(cfg, leeway, s, ev);
    FailedConfined(cfg, leeway, s, ev);
  }

  /** The event of a received message, if it is one. */
  predicate IsEvent(message: Json) { Decode(message).EventMsg? }

  /** An event received names its target within the leeway. */
  predicate InputFits(leeway: Leeway, input: Input) {
    input.Received? && IsEvent(input.message) ==> NamesTarget(leeway, Decode(input.message).event.targetId)
  }

  lemma EventConfined(cfg: Config, leeway: Leeway, s: State, ev: CdpEvent)
    requires Confined(cfg, leeway, s) && NamesTarget(leeway, ev.targetId)
    ensures Confined(cfg, leeway, OnEvent(cfg, s, ev))
  {
    if Admitted(cfg, ev.targetId) {
      ByKind(cfg, s, ev);
      KindConfined(cfg, leeway, s, ev, OnHttpEvent(cfg, s, ev));
      WsConfined(cfg, leeway, OnHttpEvent(cfg, s, ev), ev);
    }
  }

  lemma MsgConfined(cfg: Config, leeway: Leeway, s: State, message: Json)
    requires Confined(cfg, leeway, s) && InputFits(leeway, Received(message))
    ensures Confined(cfg, leeway, OnMsg(cfg, s, message))
  {
    if IsEvent(message) {
      EventConfined(cfg, leeway, s, Decode(message).event);
    }
  }

  lemma {:induction false} EmitAllConfined(cfg: Config, leeway: Leeway, s: State, ids: seq<string>)
    requires Confined(cfg, leeway, s)
    ensures Confined(cfg, leeway, EmitAll(s, ids))
    decreases |ids|
  {
    if ids != [] {
      EmitAllConfined(cfg, leeway, EmitHttpAndDelete(s, ids[0]), ids[1..]);
    }
  }

  lemma StepConfined(cfg: Config, leeway: Leeway, s: State, input: Input)
    requires Confined(cfg, leeway, s) && Enabled(s, input) && InputFits(leeway, input)
    ensures Confined(cfg, leeway, Step(cfg, s, input))
  {
    match input
    case Received(message) => MsgConfined(cfg, leeway, s, message);
    case PostArrives(requestId, postData) => PostConfined(cfg, leeway, s, requestId, postData);
    case BodyArrives(requestId, message, body, error) => BodyConfined(cfg, leeway, s, requestId, message, body, error);
    case CleanupCalled(reason) =>
      EmitAllConfined(cfg, leeway, s.(cleaned := true, stopReason := OrElse(s.stopReason, Some(reason))), s.httpRecords.keys);
    case WriterCloses =>
  }

  /** Over whole runs, every record written has an admitted target and an admitted URL. How exactly the
      target is known follows from what the events received say of theirs. */
  lemma {:induction false} RunConfined(cfg: Config, leeway: Leeway, states: seq<State>, inputs: seq<Input>, n: nat)
    requires IsRun(cfg, states, inputs) && n < |states|
    requires forall i :: 0 <= i < n ==> InputFits(leeway, inputs[i])
    ensures Confined(cfg, leeway, states[n])
    ensures forall i :: 0 <= i < |states[n].output| ==> OutOk(cfg, leeway, states[n].output[i])
  {
    if n > 0 {
      RunConfined(cfg, leeway, states, inputs, n - 1);
      StepConfined(cfg, leeway, states[n - 1], inputs[n - 1]);
    }
  }

  // ---- where confinement ends: the empty target id ----

  /** The event makes a new record or a new connection. */
  predicate MakesNew(cfg: Config, s: State, ev: CdpEvent) {
    var p := ev.params;
    && p.requestId != ""
    && if IsWebSocketEvent(ev) then cfg.includeWs && p.requestId !in s.wsConns
       else if !cfg.includeHttp then false
       else if ev.name == "Network.requestWillBeSent" then !cfg.httpOnly || IsHttpUrl(p.requestUrl)
       else if p.requestId in s.httpRecords.vals then false
       else if ev.name == "Network.responseReceived" then !cfg.httpOnly || IsHttpUrl(p.responseUrl)
       else ev.name == "Network.loadingFailed"
  }

  /** The event gives its target to a live record that has none. */
  predicate FillsIn(cfg: Config, s: State, ev: CdpEvent) {
    var p := ev.params;
    && cfg.includeHttp && p.requestId != "" && ev.name == "Network.responseReceived"
    && (!cfg.httpOnly || IsHttpUrl(p.responseUrl))
    && p.requestId in s.httpRecords.vals && s.httpRecords.vals[p.requestId].targetId == None
  }

  /** The target test of `onMsg` lets an empty target id pass, since it is falsy. Over all events: with one
      requested target, what is recorded keeps to that target unless the event's own target id is the
      empty string and the event makes something new, or fills in a missing target. */
  lemma BlankTargetEscapes(cfg: Config, s: State, ev: CdpEvent)
    requires cfg.targetId != "" && !s.writerClosed && Confined(cfg, MayLack, s)
    ensures Confined(cfg, MayLack, OnEvent(cfg, s, ev)) <==>
            !(!cfg.allTargets && ev.targetId == Some("") && (MakesNew(cfg, s, ev) || FillsIn(cfg, s, ev)))
  {
    if ev.targetId != Some("") {
      EventConfined(cfg, MayLack, s, ev);
    } else if cfg.allTargets {
      EventConfined(cfg, MayBeBlank, s, ev);
      assert forall t :: TargetOk(cfg, MayLack, t) == TargetOk(cfg, MayBeBlank, t);
    } else if IsWebSocketEvent(ev) {
      assert ev.name[..|WEB_SOCKET|][8] == 'w' && ev.name != "Network.responseReceived";
      if MakesNew(cfg, s, ev) {
        BlankConnEscapes(cfg, s, ev);
      } else {
        KnownConnKeepsTarget(cfg, s, ev);
      }
    } else if MakesNew(cfg, s, ev) || FillsIn(cfg, s, ev) {
      BlankRecordEscapes(cfg, s, ev);
    } else {
      KnownRecordKeepsTarget(cfg, s, ev);
    }
  }

  lemma BlankConnEscapes(cfg: Config, s: State, ev: CdpEvent)
    requires cfg.targetId != "" && !cfg.allTargets && !s.writerClosed && ev.targetId == Some("")
    requires IsWebSocketEvent(ev) && MakesNew(cfg, s, ev)
    ensures !Confined(cfg, MayLack, OnEvent(cfg, s, ev))
  {
    var s', id := OnWsEvent(cfg, s, ev), ev.params.requestId;
    assert OnHttpEvent(cfg, s, ev) == s;
    assert Judge(cfg, NamedConn(s, ev)).targetId == Some("");
    if id in s'.wsConns {
      assert !ConnOk(cfg, MayLack, s'.wsConns[id]);
    } else {
      assert !OutOk(cfg, MayLack, s'.output[|s.output|]);
    }
  }

  lemma BlankRecordEscapes(cfg: Config, s: State, ev: CdpEvent)
    requires cfg.targetId != "" && !cfg.allTargets && !s.writerClosed && ev.targetId == Some("")
    requires !IsWebSocketEvent(ev) && (MakesNew(cfg, s, ev) || FillsIn(cfg, s, ev))
    requires forall k :: k in s.httpRecords.vals ==> s.httpRecords.vals[k].requestId == k
    ensures !Confined(cfg, MayLack, OnEvent(cfg, s, ev))
  {
    assert OnEvent(cfg, s, ev) == OnHttpEvent(cfg, s, ev);
    if ev.name == "Network.loadingFailed" {
      BlankFailureEscapes(cfg, s, ev);
    } else if ev.name == "Network.requestWillBeSent" {
      BlankSentEscapes(cfg, s, ev);
    } else {
      BlankResponseEscapes(cfg, s, ev);
    }
  }

  lemma BlankFailureEscapes(cfg: Config, s: State, ev: CdpEvent)
    requires cfg.targetId != "" && !cfg.allTargets && !s.writerClosed && ev.targetId == Some("")
    requires ev.params.requestId !in s.httpRecords.vals
    ensures !Confined(cfg, MayLack, LoadingFailed(cfg, s, ev))
  {
    var s' := LoadingFailed(cfg, s, ev);
    assert s'.output[|s.output|].Http? && s'.output[|s.output|].record.targetId == Some("");
  }

  lemma BlankSentEscapes(cfg: Config, s: State, ev: CdpEvent)
    requires cfg.targetId != "" && !cfg.allTargets && ev.targetId == Some("")
    requires !cfg.httpOnly || IsHttpUrl(ev.params.requestUrl)
    ensures !Confined(cfg, MayLack, RequestWillBeSent(cfg, s, ev))
  {
    var s', id := RequestWillBeSent(cfg, s, ev), ev.params.requestId;
    assert id in s'.httpRecords.vals && s'.httpRecords.vals[id].targetId == Some("");
  }

  lemma BlankResponseEscapes(cfg: Config, s: State, ev: CdpEvent)
    requires cfg.targetId != "" && !cfg.allTargets && ev.targetId == Some("")
    requires !cfg.httpOnly || IsHttpUrl(ev.params.responseUrl)
    requires var id := ev.params.requestId;
             id in s.httpRecords.vals ==> s.httpRecords.vals[id].requestId == id && s.httpRecords.vals[id].targetId == None
    ensures !Confined(cfg, MayLack, ResponseReceived(cfg, s, ev))
  {
    var s', id := ResponseReceived(cfg, s, ev), ev.params.requestId;
    assert id in s'.httpRecords.vals && s'.httpRecords.vals[id].targetId == Some("");
  }

  /** On a known connection an empty target id is not taken over. */
  lemma KnownConnKeepsTarget(cfg: Config, s: State, ev: CdpEvent)
    requires Confined(cfg, MayLack, s) && ev.targetId == Some("") && IsWebSocketEvent(ev) && !MakesNew(cfg, s, ev)
    ensures Confined(cfg, MayLack, OnEvent(cfg, s, ev))
  {
    assert OnHttpEvent(cfg, s, ev) == s;
    if cfg.includeWs && ev.params.requestId != "" {
      var judged := Judge(cfg, NamedConn(s, ev));
      assert ConnOk(cfg, MayLack, s.wsConns[ev.params.requestId]);
      JudgeConfined(cfg, MayLack, NamedConn(s, ev));
      RecordConfined(cfg, MayLack, s, ev.params.requestId, judged, WsKind(ev.name));
    }
  }

  /** Nor is it on a live record, other than by a response to a record without a target. */
  lemma KnownRecordKeepsTarget(cfg: Config, s: State, ev: CdpEvent)
    requires Confined(cfg, MayLack, s) && ev.targetId == Some("") && !IsWebSocketEvent(ev)
    requires !MakesNew(cfg, s, ev) && !FillsIn(cfg, s, ev)
    ensures Confined(cfg, MayLack, OnEvent(cfg, s, ev))
  {
    var s' := OnHttpEvent(cfg, s, ev);
    assert OnWsEvent(cfg, s', ev) == s';
    QuietKind(cfg, s, ev);
    ExtraConfined(cfg, MayLack, s, ev);
    FinishedConfined(cfg, MayLack, s, ev);
    if ev.params.requestId in s.httpRecords.vals {
      KnownFailureConfined(cfg, s, ev);
      if s.httpRecords.vals[ev.params.requestId].targetId.Some? {
        KnownResponseConfined(cfg, s, ev);
      }
    }
  }

  /** What kinds are left when an event makes nothing new and fills in nothing. */
  lemma QuietKind(cfg: Config, s: State, ev: CdpEvent)
    requires !IsWebSocketEvent(ev) && !MakesNew(cfg, s, ev) && !FillsIn(cfg, s, ev)
    ensures var (s', id) := (OnHttpEvent(cfg, s, ev), ev.params.requestId);
            || s' == s
            || s' == RequestExtraInfo(cfg, s, ev) || s' == ResponseExtraInfo(cfg, s, ev)
            || s' == LoadingFinished(cfg, s, ev) || s' == OtherHttpEvent(cfg, s, ev)
            || (id in s.httpRecords.vals && s' == LoadingFailed(cfg, s, ev))
            || (id in s.httpRecords.vals && s.httpRecords.vals[id].targetId.Some? && s' == ResponseReceived(cfg, s, ev))
  {
  }

  lemma KnownFailureConfined(cfg: Config, s: State, ev: CdpEvent)
    requires Confined(cfg, MayLack, s) && ev.params.requestId in s.httpRecords.vals
    ensures Confined(cfg, MayLack, LoadingFailed(cfg, s, ev))
  {
    var p, current := ev.params, s.httpRecords.vals[ev.params.requestId];
    PutAndEmitConfined(cfg, MayLack, s, current.(error := Some(HttpError(p.errorText, p.canceled)),
                                               raw := current.raw + RawOf(cfg, ev)));
  }

  lemma KnownResponseConfined(cfg: Config, s: State, ev: CdpEvent)
    requires Confined(cfg, MayLack, s) && ev.params.requestId in s.httpRecords.vals
    requires s.httpRecords.vals[ev.params.requestId].targetId.Some?
    ensures Confined(cfg, MayLack, ResponseReceived(cfg, s, ev))
  {
    if !cfg.httpOnly || IsHttpUrl(ev.params.responseUrl) {
      PutConfined(cfg, MayLack, s, ResponseReceived(cfg, s, ev).httpRecords.vals[ev.params.requestId]);
    }
  }

  /** Such a message: the relay forwards it, and a recorder of one target takes it as its own. */
  lemma BlankTargetMessage(cfg: Config) returns (message: Json)
    requires cfg.targetId != "" && !cfg.allTargets && cfg.includeHttp && !cfg.httpOnly
    ensures Messages.Classify(message).EventOrLog? && Enabled(INIT, Received(message))
    ensures Confined(cfg, MayLack, INIT) && !Confined(cfg, MayLack, OnMsg(cfg, INIT, message))
  {
    var event := [Member("requestId", Some(JString("1")))];
    var params := [Member("targetId", Some(JString(""))), Member("method", Some(JString("Network.requestWillBeSent"))),
                   Member("params", Some(Object(event)))];
    var members := [Member("method", Some(JString("forwardCDPEvent"))), Member("params", Some(Object(params)))];
    message := Object(members);
    ObjectProp(members, 0);
    ObjectProp(members, 1);
    AbsentKey(members, "id");
    ObjectProp(params, 0);
    ObjectProp(params, 1);
    ObjectProp(params, 2);
    ObjectProp(event, 0);
    BlankRequestEscapes(cfg, Decode(message).event);
  }

  lemma BlankRequestEscapes(cfg: Config, ev: CdpEvent)
    requires cfg.targetId != "" && !cfg.allTargets && cfg.includeHttp && !cfg.httpOnly
    requires ev.name == "Network.requestWillBeSent" && ev.targetId == Some("") && ev.params.requestId == "1"
    ensures Confined(cfg, MayLack, INIT) && !Confined(cfg, MayLack, OnEvent(cfg, INIT, ev))
  {
    assert ev.name[8] == 'r' && !IsWebSocketEvent(ev);
    assert MakesNew(cfg, INIT, ev);
    BlankTargetEscapes(cfg, INIT, ev);
  }

  // ---- WebSocket connections ----

  /** The connection is still known, under the same URL, and still filtered out if it was. */
  ghost predicate ConnKept(s: State, s': State, id: string)
    requires id in s.wsConns
  {
    && id in s'.wsConns
    && (Truthy(s.wsConns[id].url) ==> s'.wsConns[id].url == s.wsConns[id].url)
    && (s.wsConns[id].filteredOut ==> s'.wsConns[id].filteredOut)
  }

  predicate IsClose(r: OutRecord, id: string) { r.Ws? && r.kind == "ws_closed" && r.requestId == id }

  /** The step wrote the connection's `ws_closed` record. */
  ghost predicate CloseWritten(s: State, s': State, id: string) {
    exists i :: |s.output| <= i < |s'.output| && IsClose(s'.output[i], id)
  }

  lemma KindKeepsConns(cfg: Config, s: State, ev: CdpEvent, r: State)
    requires OneKind(cfg, s, ev, r)
    ensures r.wsConns == s.wsConns
  {
    EmitsSpareTheRest(cfg, s, ev);
    OthersSpareTheRest(cfg, s, ev);
  }

  lemma WsEventConns(cfg: Config, s: State, ev: CdpEvent, id: string)
    requires id in s.wsConns && !s.writerClosed
    ensures var s' := OnWsEvent(cfg, s, ev);
            ConnKept(s, s', id) || (!s.wsConns[id].filteredOut && CloseWritten(s, s', id))
  {
    var s' := OnWsEvent(cfg, s, ev);
    if !ConnKept(s, s', id) {
      assert ev.params.requestId == id && ev.name == "Network.webSocketClosed";
      assert IsClose(s'.output[|s.output|], id);
    }
  }

  lemma StepConns(cfg: Config, s: State, input: Input, id: string)
    requires Enabled(s, input) && Sealed(s) && id in s.wsConns
    ensures var s' := Step(cfg, s, input);
            ConnKept(s, s', id) || (!s.wsConns[id].filteredOut && CloseWritten(s, s', id))
  {
    match input
    case Received(message) =>
      if IsEvent(message) && Admitted(cfg, Decode(message).event.targetId) {
        var ev := Decode(message).event;
        var mid := OnHttpEvent(cfg, s, ev);
        ByKind(cfg, s, ev);
        KindKeepsConns(cfg, s, ev, mid);
        KindAppends(cfg, s, ev, mid);
        WsEventConns(cfg, mid, ev, id);
      }
    case CleanupCalled(reason) =>
      EmitAllKeeps(s.(cleaned := true, stopReason := OrElse(s.stopReason, Some(reason))), s.httpRecords.keys);
    case PostArrives(_, _) =>
    case BodyArrives(_, _, _, _) =>
    case WriterCloses =>
  }

  /** The filter's verdict is permanent: a connection filtered out stays so, under the same URL, for the
      rest of the run, its own close event included. */
  lemma {:induction false} FilteredForever(cfg: Config, states: seq<State>, inputs: seq<Input>, n: nat, m: nat, id: string)
    requires IsRun(cfg, states, inputs) && n <= m < |states|
    requires id in states[n].wsConns && states[n].wsConns[id].filteredOut
    ensures id in states[m].wsConns && states[m].wsConns[id].filteredOut
    ensures states[m].wsConns[id].url == states[n].wsConns[id].url
    decreases m
  {
    if n < m {
      FilteredForever(cfg, states, inputs, n, m - 1, id);
      RunConfined(cfg, MayBeBlank, states, inputs, m - 1);
      RunBooks(cfg, states, inputs, m - 1);
      assert ConnOk(cfg, MayBeBlank, states[m - 1].wsConns[id]);
      StepConns(cfg, states[m - 1], inputs[m - 1], id);
    }
  }

  /** A connection keeps its non-empty URL until its `ws_closed` record is written. */
  lemma {:induction false} UrlKeptUntilClosed(cfg: Config, states: seq<State>, inputs: seq<Input>, n: nat, m: nat, id: string)
    requires IsRun(cfg, states, inputs) && n <= m < |states|
    requires id in states[n].wsConns && Truthy(states[n].wsConns[id].url)
    requires !CloseWritten(states[n], states[m], id)
    ensures id in states[m].wsConns && states[m].wsConns[id].url == states[n].wsConns[id].url
    decreases m
  {
    if n < m {
      var a, b, c := states[n], states[m - 1], states[m];
      RunBooks(cfg, states, inputs, m - 1);
      OutputGrows(cfg, states, inputs, n, m - 1);
      OutputGrows(cfg, states, inputs, m - 1, m);
      assert forall i :: 0 <= i < |b.output| ==> c.output[i] == b.output[i];
      assert !CloseWritten(a, b, id);
      UrlKeptUntilClosed(cfg, states, inputs, n, m - 1, id);
      StepConns(cfg, b, inputs[m - 1], id);
      assert !CloseWritten(b, c, id);
    }
  }
}
