/** When the order in which a request's events arrive matters. The browser does not promise one for the
    extra-info events, and post data comes whenever its fetch completes. */
module RecorderOrder {
  import opened Prelude
  import opened RecorderState
  import opened RecorderRuns

  /** The URL filter lets the response make or change a record. */
  predicate ResponsePasses(cfg: Config, ev: CdpEvent) { !cfg.httpOnly || IsHttpUrl(ev.params.responseUrl) }

  predicate RequestPasses(cfg: Config, ev: CdpEvent) { !cfg.httpOnly || IsHttpUrl(ev.params.requestUrl) }

  predicate IsLive(s: State, ev: CdpEvent) { ev.params.requestId in s.httpRecords.vals }

  /** A response and its extra info may come in either order exactly if the request has a live record,
      or the response is filtered out; else the extra info is lost when it comes first. */
  lemma ResponseAndExtraInfo(cfg: Config, s: State, response: CdpEvent, extra: CdpEvent)
    requires RecordsMatch(s) && response.params.requestId == extra.params.requestId
    ensures ResponseExtraInfo(cfg, ResponseReceived(cfg, s, response), extra) ==
            ResponseReceived(cfg, ResponseExtraInfo(cfg, s, extra), response)
            <==> IsLive(s, response) || !ResponsePasses(cfg, response)
  {
    var id := response.params.requestId;
    var a := ResponseExtraInfo(cfg, ResponseReceived(cfg, s, response), extra);
    var b := ResponseReceived(cfg, ResponseExtraInfo(cfg, s, extra), response);
    if !IsLive(s, response) && ResponsePasses(cfg, response) {
      assert a.httpRecords.vals[id].response.value.extraInfo.Some?;
      assert b.httpRecords.vals[id].response.value.extraInfo.None?;
    } else if ResponsePasses(cfg, response) {
      assert a.httpRecords.vals[id] == b.httpRecords.vals[id];
      assert a.httpRecords.vals == b.httpRecords.vals;
    }
  }

  /** A request and its extra info: the extra info is kept if it comes second and lost if it comes
      first, so the order matters unless the request is filtered out. */
  lemma RequestAndExtraInfo(cfg: Config, s: State, request: CdpEvent, extra: CdpEvent)
    requires RecordsMatch(s) && request.params.requestId == extra.params.requestId
    ensures RequestExtraInfo(cfg, RequestWillBeSent(cfg, s, request), extra) ==
            RequestWillBeSent(cfg, RequestExtraInfo(cfg, s, extra), request)
            <==> !RequestPasses(cfg, request)
  {
    var id := request.params.requestId;
    var a := RequestExtraInfo(cfg, RequestWillBeSent(cfg, s, request), extra);
    var b := RequestWillBeSent(cfg, RequestExtraInfo(cfg, s, extra), request);
    if RequestPasses(cfg, request) {
      RequestIsBare(cfg, s, request);
      ExtraInfoIsKept(cfg, RequestWillBeSent(cfg, s, request), extra);
      RequestIsBare(cfg, RequestExtraInfo(cfg, s, extra), request);
      assert a.httpRecords.vals[id].extraInfo != b.httpRecords.vals[id].extraInfo;
    } else {
      assert RequestWillBeSent(cfg, s, request) == s;
    }
  }

  lemma RequestIsBare(cfg: Config, s: State, request: CdpEvent)
    requires RequestPasses(cfg, request)
    ensures var s', id := RequestWillBeSent(cfg, s, request), request.params.requestId;
            id in s'.httpRecords.vals && s'.httpRecords.vals[id].extraInfo == None &&
            s'.httpRecords.vals[id].requestId == id
  {
  }

  lemma ExtraInfoIsKept(cfg: Config, s: State, extra: CdpEvent)
    requires IsLive(s, extra) && s.httpRecords.vals[extra.params.requestId].requestId == extra.params.requestId
    ensures var s', id := RequestExtraInfo(cfg, s, extra), extra.params.requestId;
            id in s'.httpRecords.vals && s'.httpRecords.vals[id].extraInfo == Some(extra.params.all)
  {
  }

  function ResponseThenPost(cfg: Config, s: State, response: CdpEvent, postData: Option<string>): State {
    PostFetched(ResponseReceived(cfg, s, response), response.params.requestId, postData)
  }

  function PostThenResponse(cfg: Config, s: State, response: CdpEvent, postData: Option<string>): State {
    ResponseReceived(cfg, PostFetched(s, response.params.requestId, postData), response)
  }

  /** Late post data and a response may come in either order exactly if the request has a live record, the
      response is filtered out, or there is no post data. */
  lemma ResponseAndPostData(cfg: Config, s: State, response: CdpEvent, postData: Option<string>)
    requires RecordsMatch(s)
    ensures ResponseThenPost(cfg, s, response, postData) == PostThenResponse(cfg, s, response, postData)
            <==> IsLive(s, response) || !ResponsePasses(cfg, response) || postData == None
  {
    if !ResponsePasses(cfg, response) {
      assert ResponseReceived(cfg, s, response) == s;
    } else if IsLive(s, response) {
      LivePostData(cfg, s, response, postData);
    } else {
      FreshPostData(cfg, s, response, postData);
    }
  }

  lemma LivePostData(cfg: Config, s: State, response: CdpEvent, postData: Option<string>)
    requires RecordsMatch(s) && IsLive(s, response)
    ensures ResponseThenPost(cfg, s, response, postData) == PostThenResponse(cfg, s, response, postData)
  {
    if ResponsePasses(cfg, response) && postData.Some? {
      var id := response.params.requestId;
      var a, b := ResponseThenPost(cfg, s, response, postData), PostThenResponse(cfg, s, response, postData);
      assert a.httpRecords.keys == s.httpRecords.keys == b.httpRecords.keys;
      assert a.httpRecords.vals[id] == b.httpRecords.vals[id];
      assert a.httpRecords.vals == s.httpRecords.vals[id := a.httpRecords.vals[id]] == b.httpRecords.vals;
    }
  }

  lemma FreshPostData(cfg: Config, s: State, response: CdpEvent, postData: Option<string>)
    requires !IsLive(s, response) && ResponsePasses(cfg, response)
    ensures ResponseThenPost(cfg, s, response, postData) == PostThenResponse(cfg, s, response, postData) <==> postData == None
  {
    var id := response.params.requestId;
    FirstResponse(cfg, s, response);
    FirstResponse(cfg, PostFetched(s, id, postData), response);
    assert postData.Some? ==> ResponseThenPost(cfg, s, response, postData).httpRecords.vals[id].postData == postData;
  }

  lemma FirstResponse(cfg: Config, s: State, response: CdpEvent)
    requires !IsLive(s, response) && ResponsePasses(cfg, response)
    ensures var s', id := ResponseReceived(cfg, s, response), response.params.requestId;
            && id in s'.httpRecords.vals && s'.httpRecords.vals[id].postData == None
            && s'.httpRecords.vals[id].requestId == id
  {
  }
}
