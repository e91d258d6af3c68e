/** The recorder as a program: its maps and flags, and its callbacks as methods that update them in place. */
module Recorder {
  import opened Prelude
  import opened Text
  import opened Json
  import opened JsTable
  import opened RecorderState
  import RecorderRuns

  class Recorder {
    const cfg: Config
    var httpRecords: Table<string, HttpRecord>
    var wsConns: map<string, ConnMeta>
    var output: seq<OutRecord>
    var writerClosed: bool
    var cleaned: bool
    var stopReason: Option<string>
    var fetches: multiset<Fetch>

    // history
    var created: nat
    ghost var replaced: set<nat>

    ghost function Abs(): State
      reads this
    {
      State(httpRecords, wsConns, output, writerClosed, cleaned, stopReason, fetches, created, replaced)
    }

    /** The object invariant: the records are conserved, and one stop record marks a cleanup. */
    ghost predicate Valid()
      reads this
    {
      RecorderRuns.Books(Abs()) && RecorderRuns.StopMatch(Abs())
    }

    /** Cleanup was not called yet, so messages are still handled. */
    ghost predicate Running()
      reads this
    {
      RecorderRuns.Running(Abs())
    }

    constructor (cfg: Config)
      ensures Valid() && Running() && Abs() == INIT && this.cfg == cfg
    {
      this.cfg := cfg;
      httpRecords, wsConns, output := Table([], map[]), map[], [Started];
      writerClosed, cleaned, stopReason, fetches := false, false, None, multiset{};
      created, replaced := 0, {};
      new;
      assert [Started][..0] == [];
    }

    method WriteRecord(r: OutRecord)
      modifies this`output
      ensures Abs() == Write(old(Abs()), r)
    {
      if writerClosed {
        return;
      }
      output := output + [r];
    }

    method EmitHttpAndDelete(requestId: string)
      modifies this
      ensures Abs() == RecorderState.EmitHttpAndDelete(old(Abs()), requestId)
    {
      if requestId !in httpRecords.vals {
        return;
      }
      var rec := httpRecords.vals[requestId];
      WriteRecord(Http(rec));
      httpRecords := httpRecords.Drop(requestId);
    }

    /** `httpRecords.set` of a record made by this event. */
    method PutNewRecord(rec: HttpRecord)
      modifies this
      ensures Abs() == PutNew(old(Abs()), rec)
    {
      if rec.requestId in httpRecords.vals {
        replaced := replaced + {httpRecords.vals[rec.requestId].serial};
      }
      httpRecords := httpRecords.Put(rec.requestId, rec);
      created := created + 1;
    }

    // ---- HTTP events ----

    method OnRequestWillBeSent(ev: CdpEvent)
      requires Running()
      modifies this
      ensures Running() && Abs() == RequestWillBeSent(cfg, old(Abs()), ev)
    {
      RecorderRuns.KindRuns(cfg, Abs(), ev, RequestWillBeSent(cfg, Abs(), ev));
      var p := ev.params;
      if cfg.httpOnly && !IsHttpUrl(p.requestUrl) {
        return;
      }
      PutNewRecord(NewRecord(cfg, created, ev, p.requestUrl, p.requestMethod));
      var verb := Upper(p.requestMethod);
      var shouldTryPost := p.hasPostData || (verb != "GET" && verb != "HEAD");
      var tid := if ev.targetId.Some? then ev.targetId.value else cfg.targetId;
      if shouldTryPost && tid != "" {
        fetches := fetches + multiset{PostFetch(p.requestId)};
      }
    }

    method OnRequestExtraInfo(ev: CdpEvent)
      requires Running()
      modifies this
      ensures Running() && Abs() == RequestExtraInfo(cfg, old(Abs()), ev)
    {
      RecorderRuns.KindRuns(cfg, Abs(), ev, RequestExtraInfo(cfg, Abs(), ev));
      var id := ev.params.requestId;
      if id !in httpRecords.vals {
        return;
      }
      var current := httpRecords.vals[id];
      if ev.params.headers.Some? {
        current := current.(headersExtraInfo := ev.params.headers);
      }
      current := current.(extraInfo := Some(ev.params.all));
      if cfg.raw {
        current := current.(raw := current.raw + [ev.message]);
      } else {
        assert current.raw + [] == current.raw;
      }
      httpRecords := httpRecords.Put(current.requestId, current);
    }

    method OnResponseReceived(ev: CdpEvent)
      requires Running()
      modifies this
      ensures Running() && Abs() == ResponseReceived(cfg, old(Abs()), ev)
    {
      RecorderRuns.KindRuns(cfg, Abs(), ev, ResponseReceived(cfg, Abs(), ev));
      var p, id := ev.params, ev.params.requestId;
      if cfg.httpOnly && !IsHttpUrl(p.responseUrl) {
        return;
      }
      var known := id in httpRecords.vals;
      var current := NewRecord(cfg, created, ev, p.responseUrl, "");
      if known {
        current := httpRecords.vals[id];
      }
      if current.targetId == None {
        current := current.(targetId := ev.targetId);
      }
      var response := NO_RESPONSE;
      if current.response.Some? {
        response := current.response.value;
      }
      response := response.(url := Some(p.responseUrl), status := p.status);
      current := current.(response := Some(response));
      if known {
        httpRecords := httpRecords.Put(current.requestId, current);
      } else {
        PutNewRecord(current);
      }
    }

    method OnResponseExtraInfo(ev: CdpEvent)
      requires Running()
      modifies this
      ensures Running() && Abs() == ResponseExtraInfo(cfg, old(Abs()), ev)
    {
      RecorderRuns.KindRuns(cfg, Abs(), ev, ResponseExtraInfo(cfg, Abs(), ev));
      var id := ev.params.requestId;
      if id !in httpRecords.vals {
        return;
      }
      var current := httpRecords.vals[id];
      var response := if current.response.Some? then current.response.value else NO_RESPONSE;
      if ev.params.headers.Some? {
        response := response.(headersExtraInfo := ev.params.headers);
      }
      response := response.(extraInfo := Some(ev.params.all));
      current := current.(response := Some(response));
      if cfg.raw {
        current := current.(raw := current.raw + [ev.message]);
      } else {
        assert current.raw + [] == current.raw;
      }
      httpRecords := httpRecords.Put(current.requestId, current);
    }

    method OnLoadingFinished(ev: CdpEvent)
      requires Running()
      modifies this
      ensures Running() && Abs() == LoadingFinished(cfg, old(Abs()), ev)
    {
      RecorderRuns.KindRuns(cfg, Abs(), ev, LoadingFinished(cfg, Abs(), ev));
      var id := ev.params.requestId;
      if id !in httpRecords.vals {
        return;
      }
      var current := httpRecords.vals[id];
      var tid := if ev.targetId.Some? then ev.targetId.value
                 else if current.targetId.Some? then current.targetId.value else cfg.targetId;
      if tid != "" {
        fetches := fetches + multiset{BodyFetch(id, ev.message)};
        return;
      }
      if cfg.raw {
        current := current.(raw := current.raw + [ev.message]);
      } else {
        assert current.raw + [] == current.raw;
      }
      httpRecords := httpRecords.Put(current.requestId, current);
      EmitHttpAndDelete(id);
    }

    method OnLoadingFailed(ev: CdpEvent)
      requires Running()
      modifies this
      ensures Running() && Abs() == LoadingFailed(cfg, old(Abs()), ev)
    {
      RecorderRuns.KindRuns(cfg, Abs(), ev, LoadingFailed(cfg, Abs(), ev));
      var p, id := ev.params, ev.params.requestId;
      var known := id in httpRecords.vals;
      var current := NewRecord(cfg, created, ev, "", "");
      if known {
        current := httpRecords.vals[id];
      }
      current := current.(error := Some(HttpError(p.errorText, p.canceled)));
      if cfg.raw {
        current := current.(raw := current.raw + [ev.message]);
      } else {
        assert current.raw + [] == current.raw;
      }
      if known {
        httpRecords := httpRecords.Put(current.requestId, current);
      } else {
        PutNewRecord(current);
      }
      EmitHttpAndDelete(id);
    }

    method OnOtherHttpEvent(ev: CdpEvent)
      requires Running()
      modifies this
      ensures Running() && Abs() == OtherHttpEvent(cfg, old(Abs()), ev)
    {
      RecorderRuns.KindRuns(cfg, Abs(), ev, OtherHttpEvent(cfg, Abs(), ev));
      var id := ev.params.requestId;
      if cfg.raw && id in httpRecords.vals {
        var current := httpRecords.vals[id];
        current := current.(raw := current.raw + [ev.message]);
        httpRecords := httpRecords.Put(current.requestId, current);
      }
    }

    /** An event about one request: no other request's record, and no connection, is touched. */
    method OnHttpEvent(ev: CdpEvent)
      requires Running()
      modifies this
      ensures Running() && Abs() == RecorderState.OnHttpEvent(cfg, old(Abs()), ev)
      ensures RecorderRuns.OthersKept(old(Abs()), Abs(), ev.params.requestId) && wsConns == old(wsConns)
    {
      RecorderRuns.ByKind(cfg, Abs(), ev);
      RecorderRuns.KindIsLocal(cfg, Abs(), ev, RecorderState.OnHttpEvent(cfg, Abs(), ev));
      if !cfg.includeHttp || IsWebSocketEvent(ev) || ev.params.requestId == "" {
        return;
      }
      if ev.name == "Network.requestWillBeSent" {
        OnRequestWillBeSent(ev);
      } else if ev.name == "Network.requestWillBeSentExtraInfo" {
        OnRequestExtraInfo(ev);
      } else if ev.name == "Network.responseReceived" {
        OnResponseReceived(ev);
      } else if ev.name == "Network.responseReceivedExtraInfo" {
        OnResponseExtraInfo(ev);
      } else if ev.name == "Network.loadingFinished" {
        OnLoadingFinished(ev);
      } else if ev.name == "Network.loadingFailed" {
        OnLoadingFailed(ev);
      } else {
        OnOtherHttpEvent(ev);
      }
    }

    /** The post-data fetch of a request comes back. */
    method OnPostFetched(requestId: string, postData: Option<string>)
      requires Valid() && PostFetch(requestId) in fetches
      modifies this
      ensures Valid() && Abs() == PostFetched(old(Abs()), requestId, postData)
    {
      RecorderRuns.FetchBooks(cfg, Abs(), PostArrives(requestId, postData));
      fetches := fetches - multiset{PostFetch(requestId)};
      if requestId in httpRecords.vals && postData.Some? {
        var current := httpRecords.vals[requestId].(postData := postData);
        httpRecords := httpRecords.Put(current.requestId, current);
      }
    }

    /** The body fetch of a finished request comes back, perhaps after its record has gone. */
    method OnBodyFetched(requestId: string, message: Json, body: Option<string>, error: Option<string>)
      requires Valid() && BodyFetch(requestId, message) in fetches
      modifies this
      ensures Valid() && Abs() == BodyFetched(cfg, old(Abs()), requestId, message, body, error)
    {
      RecorderRuns.FetchBooks(cfg, Abs(), BodyArrives(requestId, message, body, error));
      RecorderRuns.StepStops(cfg, Abs(), BodyArrives(requestId, message, body, error));
      fetches := fetches - multiset{BodyFetch(requestId, message)};
      if requestId !in httpRecords.vals {
        return;
      }
      var rec := WithBody(cfg, httpRecords.vals[requestId], message, body, error);
      httpRecords := httpRecords.Put(rec.requestId, rec);
      EmitHttpAndDelete(requestId);
    }

    // ---- WebSocket events ----

    /** Looks the connection up, or makes it, and fills in a target id it lacks. */
    method GetWsConn(requestId: string, targetId: Option<string>) returns (conn: ConnMeta)
      modifies this`wsConns
      ensures conn == RecorderState.GetWsConn(old(Abs()), requestId, targetId)
      ensures wsConns == old(wsConns)[requestId := conn]
    {
      if requestId in wsConns {
        conn := wsConns[requestId];
        if !Truthy(conn.targetId) && Truthy(targetId) {
          conn := conn.(targetId := targetId);
        }
      } else {
        conn := ConnMeta(targetId, None, false);
      }
      wsConns := wsConns[requestId := conn];
    }

    /** Gives the connection's verdict, and stores it. */
    method IsWsFilteredOut(requestId: string) returns (filteredOut: bool)
      requires requestId in wsConns
      modifies this`wsConns
      ensures wsConns == old(wsConns)[requestId := Judge(cfg, old(wsConns)[requestId])]
      ensures filteredOut == wsConns[requestId].filteredOut
    {
      var conn := wsConns[requestId];
      if conn.filteredOut {
        return true;
      }
      if cfg.urlIncludes == "" || !Truthy(conn.url) {
        return false;
      }
      wsConns := wsConns[requestId := conn.(filteredOut := !Includes(conn.url.value, cfg.urlIncludes))];
      return wsConns[requestId].filteredOut;
    }

    /** The connection takes over the URL of the event, if it has none. */
    method NameWsConn(ev: CdpEvent)
      modifies this`wsConns
      ensures wsConns == old(wsConns)[ev.params.requestId := NamedConn(old(Abs()), ev)]
    {
      var id := ev.params.requestId;
      var conn := GetWsConn(id, ev.targetId);
      if ev.name == "Network.webSocketCreated" {
        if conn.url == None {
          conn := conn.(url := ev.params.url);
        }
      } else if ev.params.url.Some? && !Truthy(conn.url) {
        conn := conn.(url := ev.params.url);
      }
      wsConns := wsConns[id := conn];
    }

    /** An event about one connection: no other connection, and no HTTP record, is touched. */
    method OnWsEvent(ev: CdpEvent)
      requires Running()
      modifies this
      ensures Running() && Abs() == RecorderState.OnWsEvent(cfg, old(Abs()), ev)
      ensures RecorderRuns.OthersKept(old(Abs()), Abs(), ev.params.requestId) && httpRecords == old(httpRecords)
    {
      RecorderRuns.WsRuns(cfg, Abs(), ev);
      RecorderRuns.WsIsLocal(cfg, Abs(), ev);
      var id := ev.params.requestId;
      if !cfg.includeWs || !IsWebSocketEvent(ev) || id == "" {
        return;
      }
      NameWsConn(ev);
      var filteredOut := IsWsFilteredOut(id);
      assert wsConns == old(wsConns)[id := Judge(cfg, NamedConn(old(Abs()), ev))];
      if filteredOut || WsKind(ev.name) == "" {
        return;
      }
      WriteRecord(Ws(WsKind(ev.name), wsConns[id].targetId, id, wsConns[id].url));
      if ev.name == "Network.webSocketClosed" {
        wsConns := wsConns - {id};
      }
    }

    // ---- messages and cleanup ----

    /** A message of the event stream, which ends with the stop signal. `threw` tells whether the
        callback ended in an exception. */
    method OnMsg(message: Json) returns (threw: bool)
      requires Running()
      modifies this
      ensures Running() && Abs() == RecorderState.OnMsg(cfg, old(Abs()), message)
      ensures threw == ThrowsOn(cfg, message)
      ensures threw ==> Abs() == old(Abs())
    {
      RecorderRuns.MsgRuns(cfg, Abs(), message);
      threw := false;
      match Decode(message)
      case ParseErrorMsg(raw) => WriteRecord(StreamError(raw));
      case StatusMsg => WriteRecord(StatusRecord);
      case OtherMsg =>
      case BadEventMsg(targetId) =>
        if !cfg.allTargets && Truthy(targetId) && targetId.value != cfg.targetId {
          return;
        }
        threw := cfg.includeHttp || cfg.includeWs;
      case EventMsg(ev) =>
        if !cfg.allTargets && Truthy(ev.targetId) && ev.targetId.value != cfg.targetId {
          return;
        }
        OnHttpEvent(ev);
        OnWsEvent(ev);
    }

    /** The loop runs over a copy of the keys. */
    method EmitEverything()
      modifies this
      ensures Abs() == EmitAll(old(Abs()), old(httpRecords).keys)
    {
      var ids := httpRecords.keys;
      for n := 0 to |ids|
        invariant EmitAll(Abs(), ids[n..]) == EmitAll(old(Abs()), ids)
      {
        assert ids[n..][0] == ids[n] && ids[n..][1..] == ids[n + 1..];
        EmitHttpAndDelete(ids[n]);
      }
    }

    /** Called by signals, by the timer and when the stream ends; only the first call does anything. */
    method Cleanup(reason: string)
      requires Valid()
      modifies this
      ensures Valid() && Abs() == RecorderState.Cleanup(old(Abs()), reason)
    {
      RecorderRuns.CleanupBooks(Abs(), reason);
      RecorderRuns.CleanupStops(Abs(), reason);
      if cleaned {
        return;
      }
      cleaned := true;
      if stopReason == None {
        stopReason := Some(reason);
      }
      EmitEverything();
      WriteRecord(Stopped(reason));
    }

    /** The end of cleanup, once its last commands have been answered. */
    method CloseWriter()
      requires Valid() && cleaned
      modifies this
      ensures Valid() && Abs() == old(Abs()).(writerClosed := true)
    {
      RecorderRuns.StepBooks(cfg, Abs(), WriterCloses);
      writerClosed := true;
    }
  }
}
