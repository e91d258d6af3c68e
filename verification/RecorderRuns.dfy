/** What holds of the recorder's HTTP records and of its output, under every interleaving of events,
    fetches that complete late, and cleanup. */
module RecorderRuns {
  import opened Prelude
  import opened Json
  import opened JsTable
  import opened RecorderState

  // ---- conservation ----

  ghost function Live(s: State): set<nat> {
    set k | k in s.httpRecords.vals :: s.httpRecords.vals[k].serial
  }

  ghost function Written(output: seq<OutRecord>): set<nat> {
    set i | 0 <= i < |output| && output[i].Http? :: output[i].record.serial
  }

  /** Each key of the map holds a record with that request id, and no record twice. */
  ghost predicate RecordsMatch(s: State) {
    && s.httpRecords.Valid()
    && (forall k :: k in s.httpRecords.vals ==> s.httpRecords.vals[k].requestId == k)
    && (forall j, k :: j in s.httpRecords.vals && k in s.httpRecords.vals && j != k ==>
          s.httpRecords.vals[j].serial != s.httpRecords.vals[k].serial)
  }

  /** No record is written twice. */
  ghost predicate WrittenOnce(output: seq<OutRecord>) {
    forall i, j :: 0 <= i < j < |output| && output[i].Http? && output[j].Http? ==>
      output[i].record.serial != output[j].record.serial
  }

  /** Every record put in the map is in exactly one of three places. */
  ghost predicate Conserved(s: State) {
    && (forall n :: n in Live(s) || n in Written(s.output) || n in s.replaced <==> 0 <= n < s.created)
    && Live(s) !! Written(s.output) && Live(s) !! s.replaced && Written(s.output) !! s.replaced
  }

  ghost predicate Accounts(s: State) { RecordsMatch(s) && WrittenOnce(s.output) && Conserved(s) }

  /** The accounts agree, and records can still be written. */
  ghost predicate Open(s: State) { Accounts(s) && !s.writerClosed }

  /** Cleanup raises the stop signal and leaves no record behind, and only then is the writer closed. */
  ghost predicate Sealed(s: State) {
    && (s.cleaned <==> s.stopReason.Some?)
    && (s.cleaned ==> s.httpRecords.vals == map[])
    && (s.writerClosed ==> s.cleaned)
  }

  ghost predicate Books(s: State) { Accounts(s) && Sealed(s) }

  lemma WrittenSnoc(output: seq<OutRecord>, r: OutRecord)
    ensures Written(output + [r]) == Written(output) + (if r.Http? then {r.record.serial} else {})
  {
    var more := output + [r];
    assert forall i :: 0 <= i < |output| ==> more[i] == output[i];
    assert more[|output|] == r;
  }

  lemma WriteBooks(s: State, r: OutRecord)
    requires Open(s) && !r.Http?
    ensures Open(Write(s, r))
  {
    WrittenSnoc(s.output, r);
    assert Live(Write(s, r)) == Live(s);
  }

  lemma DropLive(s: State, k: string)
    requires RecordsMatch(s) && k in s.httpRecords.vals
    ensures var s' := s.(httpRecords := s.httpRecords.Drop(k));
            RecordsMatch(s') && Live(s') == Live(s) - {s.httpRecords.vals[k].serial} &&
            s.httpRecords.vals[k].serial in Live(s)
  {
    DropValid(s.httpRecords, k);
    var s' := s.(httpRecords := s.httpRecords.Drop(k));
    forall n | n in Live(s) - {s.httpRecords.vals[k].serial}
      ensures n in Live(s')
    {
      var j :| j in s.httpRecords.vals && s.httpRecords.vals[j].serial == n;
      assert j in s'.httpRecords.vals;
    }
  }

  lemma EmitBooks(s: State, k: string)
    requires Open(s)
    ensures Open(EmitHttpAndDelete(s, k))
  {
    if k in s.httpRecords.vals {
      var s', n := EmitHttpAndDelete(s, k), s.httpRecords.vals[k].serial;
      DropLive(s, k);
      WrittenSnoc(s.output, Http(s.httpRecords.vals[k]));
      assert Live(s') == Live(s) - {n};
      assert forall i :: 0 <= i < |s.output| && s.output[i].Http? ==> s.output[i].record.serial in Written(s.output);
    }
  }

  /** The serial of the record under this key, if there is one. */
  ghost function SerialAt(s: State, id: string): set<nat> {
    if id in s.httpRecords.vals then {s.httpRecords.vals[id].serial} else {}
  }

  lemma PutLive(s: State, rec: HttpRecord)
    requires RecordsMatch(s) && (rec.serial !in Live(s) || SerialAt(s, rec.requestId) == {rec.serial})
    ensures var s' := s.(httpRecords := s.httpRecords.Put(rec.requestId, rec));
            RecordsMatch(s') && Live(s') == Live(s) - SerialAt(s, rec.requestId) + {rec.serial}
  {
    var s', id := s.(httpRecords := s.httpRecords.Put(rec.requestId, rec)), rec.requestId;
    assert forall k :: k in s.httpRecords.vals ==> s.httpRecords.vals[k].serial in Live(s);
    assert id in s'.httpRecords.vals;
    forall n | n in Live(s) - SerialAt(s, id)
      ensures n in Live(s')
    {
      var j :| j in s.httpRecords.vals && s.httpRecords.vals[j].serial == n;
      assert j in s'.httpRecords.vals;
    }
  }

  lemma PutNewBooks(s: State, rec: HttpRecord)
    requires Open(s) && rec.serial == s.created
    ensures Open(PutNew(s, rec))
  {
    var s', id := PutNew(s, rec), rec.requestId;
    PutLive(s, rec);
    assert Live(s') == Live(s) - SerialAt(s, id) + {s.created};
    assert SerialAt(s, id) <= Live(s) && s'.replaced == s.replaced + SerialAt(s, id);
  }

  lemma UpdateBooks(s: State, rec: HttpRecord)
    requires Open(s) && rec.requestId in s.httpRecords.vals
    requires rec.serial == s.httpRecords.vals[rec.requestId].serial
    ensures Open(Update(s, rec))
  {
    PutLive(s, rec);
    assert rec.serial in Live(s);
    assert Live(Update(s, rec)) == Live(s);
  }

  /** A step that leaves the records, the output and their history alone. */
  lemma SameBooks(s: State, s': State)
    requires Open(s)
    requires s' == s.(fetches := s'.fetches, wsConns := s'.wsConns, cleaned := s'.cleaned, stopReason := s'.stopReason)
    ensures Open(s')
  {
    assert Live(s') == Live(s);
  }

  lemma SentBooks(cfg: Config, s: State, ev: CdpEvent)
    requires Open(s)
    ensures Open(RequestWillBeSent(cfg, s, ev))
  {
    var rec := NewRecord(cfg, s.created, ev, ev.params.requestUrl, ev.params.requestMethod);
    PutNewBooks(s, rec);
    if !cfg.httpOnly || IsHttpUrl(ev.params.requestUrl) {
      SameBooks(PutNew(s, rec), RequestWillBeSent(cfg, s, ev));
    }
  }

  /** The events that only add to a record of the map. */
  lemma ExtraBooks(cfg: Config, s: State, ev: CdpEvent)
    requires Open(s)
    ensures Open(RequestExtraInfo(cfg, s, ev)) && Open(ResponseExtraInfo(cfg, s, ev)) && Open(OtherHttpEvent(cfg, s, ev))
  {
    var id := ev.params.requestId;
    if id in s.httpRecords.vals {
      UpdateBooks(s, RequestExtraInfo(cfg, s, ev).httpRecords.vals[id]);
      UpdateBooks(s, ResponseExtraInfo(cfg, s, ev).httpRecords.vals[id]);
      if cfg.raw {
        UpdateBooks(s, OtherHttpEvent(cfg, s, ev).httpRecords.vals[id]);
      }
    }
  }

  /** `r` is what one kind of HTTP event, or none, makes of `s`. */
  predicate OneKind(cfg: Config, s: State, ev: CdpEvent, r: State) {
    || r == s
    || r == RequestWillBeSent(cfg, s, ev)
    || r == RequestExtraInfo(cfg, s, ev)
    || r == ResponseReceived(cfg, s, ev)
    || r == ResponseExtraInfo(cfg, s, ev)
    || r == LoadingFinished(cfg, s, ev)
    || r == LoadingFailed(cfg, s, ev)
    || r == OtherHttpEvent(cfg, s, ev)
  }

  lemma ByKind(cfg: Config, s: State, ev: CdpEvent)
    ensures OneKind(cfg, s, ev, OnHttpEvent(cfg, s, ev))
  {
  }

  lemma EachKindBooks(cfg: Config, s: State, ev: CdpEvent, r: State)
    requires Open(s) && OneKind(cfg, s, ev, r)
    ensures Open(r)
  {
    SentBooks(cfg, s, ev);
    ExtraBooks(cfg, s, ev);
    ResponseBooks(cfg, s, ev);
    FinishedBooks(cfg, s, ev);
    FailedBooks(cfg, s, ev);
  }

  lemma HttpEventBooks(cfg: Config, s: State, ev: CdpEvent)
    requires Open(s)
    ensures Open(OnHttpEvent(cfg, s, ev))
  {
    ByKind(cfg, s, ev);
    EachKindBooks(cfg, s, ev, OnHttpEvent(cfg, s, ev));
  }

  lemma ResponseBooks(cfg: Config, s: State, ev: CdpEvent)
    requires Open(s)
    ensures Open(ResponseReceived(cfg, s, ev))
  {
    var s', id := ResponseReceived(cfg, s, ev), ev.params.requestId;
    if !cfg.httpOnly || IsHttpUrl(ev.params.responseUrl) {
      if id in s.httpRecords.vals {
        UpdateBooks(s, s'.httpRecords.vals[id]);
      } else {
        PutNewBooks(s, s'.httpRecords.vals[id]);
      }
    }
  }

  lemma FinishedBooks(cfg: Config, s: State, ev: CdpEvent)
    requires Open(s)
    ensures Open(LoadingFinished(cfg, s, ev))
  {
    var id := ev.params.requestId;
    if id in s.httpRecords.vals {
      var rec := s.httpRecords.vals[id];
      var updated := Update(s, rec.(raw := rec.raw + RawOf(cfg, ev)));
      UpdateBooks(s, rec.(raw := rec.raw + RawOf(cfg, ev)));
      EmitBooks(updated, id);
      SameBooks(s, s.(fetches := s.fetches + multiset{BodyFetch(id, ev.message)}));
    }
  }

  lemma FailedBooks(cfg: Config, s: State, ev: CdpEvent)
    requires Open(s)
    ensures Open(LoadingFailed(cfg, s, ev))
  {
    var id := ev.params.requestId;
    var known := id in s.httpRecords.vals;
    var current := if known then s.httpRecords.vals[id] else NewRecord(cfg, s.created, ev, "", "");
    var rec := current.(error := Some(HttpError(ev.params.errorText, ev.params.canceled)),
                        raw := current.raw + RawOf(cfg, ev));
    if known {
      UpdateBooks(s, rec);
      EmitBooks(Update(s, rec), id);
    } else {
      PutNewBooks(s, rec);
      EmitBooks(PutNew(s, rec), id);
    }
  }

  lemma PostBooks(s: State, requestId: string, postData: Option<string>)
    requires Open(s)
    ensures Open(PostFetched(s, requestId, postData))
  {
    var done := s.(fetches := s.fetches - multiset{PostFetch(requestId)});
    SameBooks(s, done);
    if requestId in s.httpRecords.vals && postData.Some? {
      UpdateBooks(done, s.httpRecords.vals[requestId].(postData := postData));
    }
  }

  lemma BodyBooks(cfg: Config, s: State, requestId: string, message: Json, body: Option<string>, error: Option<string>)
    requires Open(s)
    ensures Open(BodyFetched(cfg, s, requestId, message, body, error))
  {
    var done := s.(fetches := s.fetches - multiset{BodyFetch(requestId, message)});
    SameBooks(s, done);
    if requestId in s.httpRecords.vals {
      var rec := WithBody(cfg, s.httpRecords.vals[requestId], message, body, error);
      UpdateBooks(done, rec);
      EmitBooks(Update(done, rec), requestId);
    }
  }

  lemma WsEventBooks(cfg: Config, s: State, ev: CdpEvent)
    requires Open(s)
    ensures Open(OnWsEvent(cfg, s, ev))
  {
    var s' := OnWsEvent(cfg, s, ev);
    if s'.output == s.output {
      SameBooks(s, s');
    } else {
      var r := s'.output[|s.output|];
      WriteBooks(s, r);
      SameBooks(Write(s, r), s');
    }
  }

  lemma {:induction false} EmitAllBooks(s: State, ids: seq<string>)
    requires Open(s)
    ensures Open(EmitAll(s, ids))
    decreases |ids|
  {
    if ids != [] {
      EmitBooks(s, ids[0]);
      EmitAllBooks(EmitHttpAndDelete(s, ids[0]), ids[1..]);
    }
  }

  lemma EventBooks(cfg: Config, s: State, ev: CdpEvent)
    requires Open(s)
    ensures Open(OnEvent(cfg, s, ev))
  {
    if Admitted(cfg, ev.targetId) {
      HttpEventBooks(cfg, s, ev);
      WsEventBooks(cfg, OnHttpEvent(cfg, s, ev), ev);
    }
  }

  lemma MsgBooks(cfg: Config, s: State, message: Json)
    requires Books(s) && !s.cleaned
    ensures Books(OnMsg(cfg, s, message)) && !OnMsg(cfg, s, message).cleaned
  {
    match Decode(message)
    case ParseErrorMsg(raw) => WriteBooks(s, StreamError(raw));
    case StatusMsg => WriteBooks(s, StatusRecord);
    case EventMsg(ev) =>
      EventBooks(cfg, s, ev);
      EventAppends(cfg, s, ev);
    case BadEventMsg(_) =>
    case OtherMsg =>
  }

  lemma CleanupBooks(s: State, reason: string)
    requires Books(s)
    ensures Books(Cleanup(s, reason))
  {
    if !s.cleaned {
      var stopped := s.(cleaned := true, stopReason := OrElse(s.stopReason, Some(reason)));
      SameBooks(s, stopped);
      EmitAllBooks(stopped, s.httpRecords.keys);
      EmitAllWrites(stopped);
      EmitAllAppends(stopped, s.httpRecords.keys);
      WriteBooks(EmitAll(stopped, s.httpRecords.keys), Stopped(reason));
    }
  }

  lemma FetchBooks(cfg: Config, s: State, input: Input)
    requires Books(s) && Enabled(s, input) && (input.PostArrives? || input.BodyArrives?)
    ensures Books(Step(cfg, s, input))
  {
    if s.cleaned {
      assert Step(cfg, s, input) == s.(fetches := Step(cfg, s, input).fetches);
      assert Live(Step(cfg, s, input)) == Live(s);
    } else {
      match input
      case PostArrives(requestId, postData) => PostBooks(s, requestId, postData);
      case BodyArrives(requestId, message, body, error) => BodyBooks(cfg, s, requestId, message, body, error);
    }
  }

  lemma StepBooks(cfg: Config, s: State, input: Input)
    requires Books(s) && Enabled(s, input)
    ensures Books(Step(cfg, s, input))
  {
    match input
    case Received(message) => MsgBooks(cfg, s, message);
    case PostArrives(_, _) => FetchBooks(cfg, s, input);
    case BodyArrives(_, _, _, _) => FetchBooks(cfg, s, input);
    case CleanupCalled(reason) => CleanupBooks(s, reason);
    case WriterCloses => assert Live(Step(cfg, s, input)) == Live(s);
  }

  /** An event leaves the books in order and the recorder running. */
  ghost predicate Running(s: State) { Books(s) && StopMatch(s) && !s.cleaned }

  lemma KindRuns(cfg: Config, s: State, ev: CdpEvent, r: State)
    requires Running(s) && OneKind(cfg, s, ev, r)
    ensures Running(r)
  {
    EachKindBooks(cfg, s, ev, r);
    KindAppends(cfg, s, ev, r);
    StopCountAppend(s.output, r.output);
  }

  lemma WsRuns(cfg: Config, s: State, ev: CdpEvent)
    requires Running(s)
    ensures Running(OnWsEvent(cfg, s, ev))
  {
    WsEventBooks(cfg, s, ev);
    WsAppends(cfg, s, ev);
    StopCountAppend(s.output, OnWsEvent(cfg, s, ev).output);
  }

  lemma MsgRuns(cfg: Config, s: State, message: Json)
    requires Running(s)
    ensures Running(OnMsg(cfg, s, message))
  {
    MsgBooks(cfg, s, message);
    MsgAppends(cfg, s, message);
    StopCountAppend(s.output, OnMsg(cfg, s, message).output);
  }

  /** No other request's record and no other connection is touched, and what is written is about this one. */
  ghost predicate OthersKept(s: State, s': State, id: string) {
    && (forall k :: k != id ==>
          (k in s'.httpRecords.vals <==> k in s.httpRecords.vals) && (k in s'.wsConns <==> k in s.wsConns))
    && (forall k :: k != id && k in s.httpRecords.vals ==> s'.httpRecords.vals[k] == s.httpRecords.vals[k])
    && (forall k :: k != id && k in s.wsConns ==> s'.wsConns[k] == s.wsConns[k])
    && s.output <= s'.output
    && forall i :: |s.output| <= i < |s'.output| ==> IsAbout(s'.output[i], id)
  }

  /** The record is about the request or connection with this id. */
  predicate IsAbout(r: OutRecord, id: string) {
    (r.Http? && r.record.requestId == id) || (r.Ws? && r.requestId == id)
  }

  lemma PutIsLocal(s: State, rec: HttpRecord)
    ensures OthersKept(s, PutNew(s, rec), rec.requestId) && OthersKept(s, Update(s, rec), rec.requestId)
  {
  }

  lemma EmitIsLocal(s: State, mid: State, id: string)
    requires OthersKept(s, mid, id) && id in mid.httpRecords.vals && mid.httpRecords.vals[id].requestId == id
    ensures OthersKept(s, EmitHttpAndDelete(mid, id), id)
  {
  }

  lemma RequestIsLocal(cfg: Config, s: State, ev: CdpEvent)
    requires RecordsMatch(s)
    ensures OthersKept(s, RequestWillBeSent(cfg, s, ev), ev.params.requestId)
    ensures OthersKept(s, RequestExtraInfo(cfg, s, ev), ev.params.requestId)
    ensures OthersKept(s, OtherHttpEvent(cfg, s, ev), ev.params.requestId)
  {
    PutIsLocal(s, NewRecord(cfg, s.created, ev, ev.params.requestUrl, ev.params.requestMethod));
  }

  lemma ResponseIsLocal(cfg: Config, s: State, ev: CdpEvent)
    requires RecordsMatch(s)
    ensures OthersKept(s, ResponseReceived(cfg, s, ev), ev.params.requestId)
    ensures OthersKept(s, ResponseExtraInfo(cfg, s, ev), ev.params.requestId)
  {
    var id := ev.params.requestId;
    if !cfg.httpOnly || IsHttpUrl(ev.params.responseUrl) {
      PutIsLocal(s, ResponseReceived(cfg, s, ev).httpRecords.vals[id]);
    }
  }

  lemma FinishedIsLocal(cfg: Config, s: State, ev: CdpEvent)
    requires RecordsMatch(s)
    ensures OthersKept(s, LoadingFinished(cfg, s, ev), ev.params.requestId)
  {
    var id := ev.params.requestId;
    if id in s.httpRecords.vals {
      var rec := s.httpRecords.vals[id];
      var updated := rec.(raw := rec.raw + RawOf(cfg, ev));
      PutIsLocal(s, updated);
      EmitIsLocal(s, Update(s, updated), id);
    }
  }

  lemma FailedIsLocal(cfg: Config, s: State, ev: CdpEvent)
    requires RecordsMatch(s)
    ensures OthersKept(s, LoadingFailed(cfg, s, ev), ev.params.requestId)
  {
    var id := ev.params.requestId;
    var known := id in s.httpRecords.vals;
    var current := if known then s.httpRecords.vals[id] else NewRecord(cfg, s.created, ev, "", "");
    var rec := current.(error := Some(HttpError(ev.params.errorText, ev.params.canceled)),
                        raw := current.raw + RawOf(cfg, ev));
    PutIsLocal(s, rec);
    EmitIsLocal(s, if known then Update(s, rec) else PutNew(s, rec), id);
  }

  lemma EmitsSpareTheRest(cfg: Config, s: State, ev: CdpEvent)
    ensures LoadingFinished(cfg, s, ev).wsConns == s.wsConns == LoadingFailed(cfg, s, ev).wsConns
    ensures LoadingFinished(cfg, s, ev).replaced == s.replaced == LoadingFailed(cfg, s, ev).replaced
  {
  }

  lemma OthersSpareTheRest(cfg: Config, s: State, ev: CdpEvent)
    ensures RequestWillBeSent(cfg, s, ev).wsConns == s.wsConns == RequestExtraInfo(cfg, s, ev).wsConns
    ensures ResponseReceived(cfg, s, ev).wsConns == s.wsConns == ResponseExtraInfo(cfg, s, ev).wsConns
    ensures OtherHttpEvent(cfg, s, ev).wsConns == s.wsConns
    ensures RequestExtraInfo(cfg, s, ev).replaced == s.replaced == OtherHttpEvent(cfg, s, ev).replaced
    ensures ResponseReceived(cfg, s, ev).replaced == s.replaced == ResponseExtraInfo(cfg, s, ev).replaced
  {
  }

  lemma KindIsLocal(cfg: Config, s: State, ev: CdpEvent, r: State)
    requires RecordsMatch(s) && OneKind(cfg, s, ev, r)
    ensures OthersKept(s, r, ev.params.requestId) && r.wsConns == s.wsConns
  {
    RequestIsLocal(cfg, s, ev);
    ResponseIsLocal(cfg, s, ev);
    FinishedIsLocal(cfg, s, ev);
    FailedIsLocal(cfg, s, ev);
    EmitsSpareTheRest(cfg, s, ev);
    OthersSpareTheRest(cfg, s, ev);
  }

  lemma StoreIsLocal(s: State, id: string, conn: ConnMeta, kind: string)
    ensures var kept := s.(wsConns := s.wsConns[id := conn]);
            var written := Write(kept, Ws(kind, conn.targetId, id, conn.url));
            && OthersKept(s, kept, id) && OthersKept(s, written, id)
            && OthersKept(s, written.(wsConns := written.wsConns - {id}), id)
  {
  }

  lemma WsIsLocal(cfg: Config, s: State, ev: CdpEvent)
    ensures OthersKept(s, OnWsEvent(cfg, s, ev), ev.params.requestId)
    ensures OnWsEvent(cfg, s, ev).httpRecords == s.httpRecords
  {
    StoreIsLocal(s, ev.params.requestId, Judge(cfg, NamedConn(s, ev)), WsKind(ev.name));
  }

  // ---- runs ----

  ghost predicate IsRun(cfg: Config, states: seq<State>, inputs: seq<Input>) {
    && |states| == |inputs| + 1
    && states[0] == INIT
    && forall i {:trigger inputs[i]} :: 0 <= i < |inputs| ==>
         Enabled(states[i], inputs[i]) && states[i + 1] == Step(cfg, states[i], inputs[i])
  }

  lemma {:induction false} RunBooks(cfg: Config, states: seq<State>, inputs: seq<Input>, n: nat)
    requires IsRun(cfg, states, inputs) && n < |states|
    ensures Books(states[n])
  {
    if n > 0 {
      RunBooks(cfg, states, inputs, n - 1);
      StepBooks(cfg, states[n - 1], inputs[n - 1]);
    }
  }

  /** The record with this serial sits in the map. */
  ghost predicate InMap(s: State, serial: nat) {
    exists k :: k in s.httpRecords.vals && s.httpRecords.vals[k].serial == serial
  }

  /** The record with this serial was written, and at one place only. */
  ghost predicate WrittenAtOnePlace(output: seq<OutRecord>, serial: nat) {
    exists i :: 0 <= i < |output| && IsRecord(output[i], serial) &&
      forall j :: 0 <= j < |output| && IsRecord(output[j], serial) ==> j == i
  }

  predicate IsRecord(r: OutRecord, serial: nat) { r.Http? && r.record.serial == serial }

  /** Conservation: whatever the interleaving of events, late fetches and cleanups, a record put in the
      map is exactly one of still live, written exactly once, or replaced by a later one with its id. */
  lemma EveryRecordIsAccountedFor(cfg: Config, states: seq<State>, inputs: seq<Input>, n: nat, serial: nat)
    requires IsRun(cfg, states, inputs) && n < |states| && serial < states[n].created
    ensures var s := states[n];
            var live, written, replaced := InMap(s, serial), WrittenAtOnePlace(s.output, serial), serial in s.replaced;
            (live || written || replaced) && !(live && written) && !(live && replaced) && !(written && replaced)
  {
    var s := states[n];
    RunBooks(cfg, states, inputs, n);
    assert InMap(s, serial) <==> serial in Live(s);
    if serial in Written(s.output) {
      var i :| 0 <= i < |s.output| && s.output[i].Http? && s.output[i].record.serial == serial;
      assert IsRecord(s.output[i], serial);
    }
    assert WrittenAtOnePlace(s.output, serial) ==> serial in Written(s.output);
  }

  /** Once cleanup was called nothing is live, and nothing is lost: whatever still arrives, every record
      ever made was either written, at one place, or replaced. */
  lemma NothingIsLost(cfg: Config, states: seq<State>, inputs: seq<Input>, n: nat, serial: nat)
    requires IsRun(cfg, states, inputs) && n < |states| && serial < states[n].created && states[n].cleaned
    ensures states[n].httpRecords.vals == map[]
    ensures WrittenAtOnePlace(states[n].output, serial) <==> serial !in states[n].replaced
  {
    RunBooks(cfg, states, inputs, n);
    EveryRecordIsAccountedFor(cfg, states, inputs, n, serial);
  }

  /** After cleanup nothing is written any more and no record is made, however many fetches still complete. */
  lemma {:induction false} QuietAfterCleanup(cfg: Config, states: seq<State>, inputs: seq<Input>, n: nat, m: nat)
    requires IsRun(cfg, states, inputs) && n <= m < |states| && states[n].cleaned
    ensures states[m].output == states[n].output && states[m].created == states[n].created
    ensures states[m].wsConns == states[n].wsConns && states[m].cleaned
    decreases m
  {
    if n < m {
      QuietAfterCleanup(cfg, states, inputs, n, m - 1);
      RunBooks(cfg, states, inputs, m - 1);
      QuietStep(cfg, states[m - 1], inputs[m - 1]);
    }
  }

  lemma QuietStep(cfg: Config, s: State, input: Input)
    requires Sealed(s) && s.cleaned && Enabled(s, input)
    ensures var s' := Step(cfg, s, input);
            s'.output == s.output && s'.created == s.created && s'.wsConns == s.wsConns && s'.cleaned
  {
    match input
    case PostArrives(_, _) =>
    case BodyArrives(_, _, _, _) =>
    case CleanupCalled(_) =>
    case WriterCloses =>
  }

  // ---- the output ----

  /** The step appends to the output, and no stop record. */
  ghost predicate Appends(s: State, s': State) {
    && s.output <= s'.output
    && (forall i :: |s.output| <= i < |s'.output| ==> !s'.output[i].Stopped?)
    && s'.cleaned == s.cleaned && s'.writerClosed == s.writerClosed && s'.stopReason == s.stopReason
  }

  lemma EmitAppends(s: State, requestId: string)
    ensures Appends(s, EmitHttpAndDelete(s, requestId))
  {
  }

  lemma FinishedAppends(cfg: Config, s: State, ev: CdpEvent)
    ensures Appends(s, LoadingFinished(cfg, s, ev))
  {
    var id := ev.params.requestId;
    if id in s.httpRecords.vals {
      var rec := s.httpRecords.vals[id];
      EmitAppends(Update(s, rec.(raw := rec.raw + RawOf(cfg, ev))), id);
    }
  }

  lemma FailedAppends(cfg: Config, s: State, ev: CdpEvent)
    ensures Appends(s, LoadingFailed(cfg, s, ev))
  {
    var id := ev.params.requestId;
    var known := id in s.httpRecords.vals;
    var current := if known then s.httpRecords.vals[id] else NewRecord(cfg, s.created, ev, "", "");
    var rec := current.(error := Some(HttpError(ev.params.errorText, ev.params.canceled)),
                        raw := current.raw + RawOf(cfg, ev));
    EmitAppends(if known then Update(s, rec) else PutNew(s, rec), id);
  }

  lemma OthersAppend(cfg: Config, s: State, ev: CdpEvent)
    ensures Appends(s, RequestWillBeSent(cfg, s, ev)) && Appends(s, RequestExtraInfo(cfg, s, ev))
    ensures Appends(s, ResponseReceived(cfg, s, ev)) && Appends(s, ResponseExtraInfo(cfg, s, ev))
    ensures Appends(s, OtherHttpEvent(cfg, s, ev))
  {
  }

  lemma KindAppends(cfg: Config, s: State, ev: CdpEvent, r: State)
    requires OneKind(cfg, s, ev, r)
    ensures Appends(s, r)
  {
    FinishedAppends(cfg, s, ev);
    FailedAppends(cfg, s, ev);
    OthersAppend(cfg, s, ev);
  }

  lemma EventAppends(cfg: Config, s: State, ev: CdpEvent)
    ensures Appends(s, OnEvent(cfg, s, ev))
  {
    if Admitted(cfg, ev.targetId) {
      var mid := OnHttpEvent(cfg, s, ev);
      ByKind(cfg, s, ev);
      KindAppends(cfg, s, ev, mid);
      WsAppends(cfg, mid, ev);
    }
  }

  lemma MsgAppends(cfg: Config, s: State, message: Json)
    ensures Appends(s, OnMsg(cfg, s, message))
  {
    if Decode(message).EventMsg? {
      EventAppends(cfg, s, Decode(message).event);
    }
  }

  lemma WsAppends(cfg: Config, s: State, ev: CdpEvent)
    ensures Appends(s, OnWsEvent(cfg, s, ev))
  {
  }

  function StopCount(output: seq<OutRecord>): nat {
    if output == [] then 0
    else StopCount(output[..|output| - 1]) + (if output[|output| - 1].Stopped? then 1 else 0)
  }

  lemma {:induction false} StopCountAppend(a: seq<OutRecord>, b: seq<OutRecord>)
    requires a <= b && forall i :: |a| <= i < |b| ==> !b[i].Stopped?
    ensures StopCount(b) == StopCount(a)
    decreases |b|
  {
    if |a| < |b| {
      assert a <= b[..|b| - 1];
      StopCountAppend(a, b[..|b| - 1]);
    } else {
      assert a == b;
    }
  }

  ghost predicate StopMatch(s: State) {
    StopCount(s.output) == if s.cleaned then 1 else 0
  }

  lemma {:induction false} EmitAllAppends(s: State, ids: seq<string>)
    ensures Appends(s, EmitAll(s, ids))
    decreases |ids|
  {
    if ids != [] {
      EmitAllAppends(EmitHttpAndDelete(s, ids[0]), ids[1..]);
    }
  }

  /** The records of the map, in map order. */
  function RecordsInOrder(t: Table<string, HttpRecord>): seq<OutRecord>
    requires forall k :: k in t.keys ==> k in t.vals
  {
    seq(|t.keys|, i requires 0 <= i < |t.keys| => Http(t.vals[t.keys[i]]))
  }

  lemma {:induction false} EmitAllWrites(s: State)
    requires s.httpRecords.Valid() && !s.writerClosed
    ensures EmitAll(s, s.httpRecords.keys).output == s.output + RecordsInOrder(s.httpRecords)
    ensures EmitAll(s, s.httpRecords.keys).httpRecords == Table([], map[])
    ensures !EmitAll(s, s.httpRecords.keys).writerClosed
    decreases |s.httpRecords.keys|
  {
    if s.httpRecords.keys == [] {
      assert s.httpRecords.vals == map[];
    } else {
      EmitFirst(s);
      EmitAllWrites(EmitHttpAndDelete(s, s.httpRecords.keys[0]));
    }
  }

  lemma EmitFirst(s: State)
    requires s.httpRecords.Valid() && !s.writerClosed && s.httpRecords.keys != []
    ensures var next := EmitHttpAndDelete(s, s.httpRecords.keys[0]);
            && next.httpRecords.Valid() && next.httpRecords.keys == s.httpRecords.keys[1..] && !next.writerClosed
            && next.output + RecordsInOrder(next.httpRecords) == s.output + RecordsInOrder(s.httpRecords)
  {
    assert s.httpRecords.keys[0] in s.httpRecords.keys;
    FirstInOrder(s.httpRecords);
  }

  lemma FirstInOrder(t: Table<string, HttpRecord>)
    requires t.Valid() && t.keys != []
    ensures var rest := t.Drop(t.keys[0]);
            rest.Valid() && rest.keys == t.keys[1..] &&
            RecordsInOrder(t) == [Http(t.vals[t.keys[0]])] + RecordsInOrder(rest)
  {
    OmitFirst(t.keys);
    DropValid(t, t.keys[0]);
  }

  /** The first cleanup writes every live record, in map order, and then the one stop record. */
  lemma CleanupWritesEverything(cfg: Config, states: seq<State>, inputs: seq<Input>, n: nat, reason: string)
    requires IsRun(cfg, states, inputs) && n < |states| && !states[n].cleaned
    ensures var s, s' := states[n], Cleanup(states[n], reason);
            && (forall k :: k in s.httpRecords.keys ==> k in s.httpRecords.vals)
            && s'.output == s.output + RecordsInOrder(s.httpRecords) + [Stopped(reason)]
            && s'.httpRecords == Table([], map[]) && s'.cleaned
  {
    var s := states[n];
    RunBooks(cfg, states, inputs, n);
    var stopped := s.(cleaned := true, stopReason := OrElse(s.stopReason, Some(reason)));
    EmitAllWrites(stopped);
    EmitAllAppends(stopped, s.httpRecords.keys);
  }

  lemma CleanupStops(s: State, reason: string)
    requires StopMatch(s) && Sealed(s)
    ensures StopMatch(Cleanup(s, reason)) && s.output <= Cleanup(s, reason).output
  {
    if !s.cleaned {
      var stopped := s.(cleaned := true, stopReason := OrElse(s.stopReason, Some(reason)));
      var emitted := EmitAll(stopped, s.httpRecords.keys);
      EmitAllAppends(stopped, s.httpRecords.keys);
      StopCountAppend(s.output, emitted.output);
      assert (emitted.output + [Stopped(reason)])[..|emitted.output|] == emitted.output;
    }
  }

  lemma StepStops(cfg: Config, s: State, input: Input)
    requires StopMatch(s) && Sealed(s) && Enabled(s, input)
    ensures StopMatch(Step(cfg, s, input)) && s.output <= Step(cfg, s, input).output
  {
    match input
    case Received(message) =>
      MsgAppends(cfg, s, message);
      StopCountAppend(s.output, OnMsg(cfg, s, message).output);
    case PostArrives(requestId, postData) =>
    case BodyArrives(requestId, message, body, error) =>
      StopCountAppend(s.output, BodyFetched(cfg, s, requestId, message, body, error).output);
    case CleanupCalled(reason) => CleanupStops(s, reason);
    case WriterCloses =>
  }

  lemma {:induction false} RunStops(cfg: Config, states: seq<State>, inputs: seq<Input>, n: nat)
    requires IsRun(cfg, states, inputs) && n < |states|
    ensures StopMatch(states[n])
  {
    if n == 0 {
      assert INIT.output[..0] == [];
    } else {
      RunStops(cfg, states, inputs, n - 1);
      RunBooks(cfg, states, inputs, n - 1);
      StepStops(cfg, states[n - 1], inputs[n - 1]);
    }
  }

  /** However often cleanup is called, one stop record is written at the first call and none after. */
  lemma StopsOnce(cfg: Config, states: seq<State>, inputs: seq<Input>, n: nat)
    requires IsRun(cfg, states, inputs) && n < |states|
    ensures StopCount(states[n].output) == if exists i :: 0 <= i < n && inputs[i].CleanupCalled? then 1 else 0
  {
    RunStops(cfg, states, inputs, n);
    CleanedByCall(cfg, states, inputs, n);
  }

  lemma {:induction false} CleanedByCall(cfg: Config, states: seq<State>, inputs: seq<Input>, n: nat)
    requires IsRun(cfg, states, inputs) && n < |states|
    ensures states[n].cleaned <==> exists i :: 0 <= i < n && inputs[i].CleanupCalled?
  {
    if n > 0 {
      CleanedByCall(cfg, states, inputs, n - 1);
      StepCleans(cfg, states[n - 1], inputs[n - 1]);
      assert (exists i :: 0 <= i < n && inputs[i].CleanupCalled?) <==>
             inputs[n - 1].CleanupCalled? || exists i :: 0 <= i < n - 1 && inputs[i].CleanupCalled?;
    }
  }

  lemma StepCleans(cfg: Config, s: State, input: Input)
    requires Enabled(s, input)
    ensures Step(cfg, s, input).cleaned <==> s.cleaned || input.CleanupCalled?
  {
    match input
    case Received(message) => MsgAppends(cfg, s, message);
    case CleanupCalled(reason) =>
      EmitAllAppends(s.(cleaned := true, stopReason := OrElse(s.stopReason, Some(reason))), s.httpRecords.keys);
    case PostArrives(_, _) =>
    case BodyArrives(_, _, _, _) =>
    case WriterCloses =>
  }

  /** The file only grows: what is written stays written. */
  lemma {:induction false} OutputGrows(cfg: Config, states: seq<State>, inputs: seq<Input>, n: nat, m: nat)
    requires IsRun(cfg, states, inputs) && n <= m < |states|
    ensures states[n].output <= states[m].output
    decreases m
  {
    if n < m {
      OutputGrows(cfg, states, inputs, n, m - 1);
      RunStops(cfg, states, inputs, m - 1);
      RunBooks(cfg, states, inputs, m - 1);
      StepStops(cfg, states[m - 1], inputs[m - 1]);
    }
  }

  /** What a completed body fetch writes: the record of the map, with the body or the error it
      brought. If the id is no longer in the map, it writes nothing and changes no record. */
  lemma BodyFetchWrites(cfg: Config, s: State, requestId: string, message: Json,
                        body: Option<string>, error: Option<string>)
    requires RecordsMatch(s)
    ensures var s' := BodyFetched(cfg, s, requestId, message, body, error);
            if requestId !in s.httpRecords.vals then s' == s.(fetches := s'.fetches)
            else
              && requestId !in s'.httpRecords.vals
              && (forall k :: k in s'.httpRecords.vals <==> k in s.httpRecords.vals && k != requestId)
              && (s.writerClosed ==> s'.output == s.output)
              && (!s.writerClosed ==>
                    |s'.output| == |s.output| + 1 && s.output <= s'.output && s'.output[|s.output|].Http? &&
                    var (was, r) := (s.httpRecords.vals[requestId], s'.output[|s.output|].record);
                    && SameIdentity(was, r) && r.targetId == was.targetId && r.error == was.error
                    && r.response.Some?
                    && (body.Some? ==> r.response.value.body == body)
                    && (Truthy(error) ==> r.response.value.bodyError == error)
                    && (was.response.Some? ==> r.response.value.status == was.response.value.status))
  {
  }

  /** A failed request is written at once, with the event's error text. */
  lemma FailureWrites(cfg: Config, s: State, ev: CdpEvent)
    requires RecordsMatch(s) && !s.writerClosed
    ensures var (s', id) := (LoadingFailed(cfg, s, ev), ev.params.requestId);
            && id !in s'.httpRecords.vals
            && |s'.output| == |s.output| + 1 && s.output <= s'.output && s'.output[|s.output|].Http?
            && var r := s'.output[|s.output|].record;
               && r.requestId == id
               && r.error == Some(HttpError(ev.params.errorText, ev.params.canceled))
               && (id in s.httpRecords.vals ==> SameIdentity(s.httpRecords.vals[id], r))
  {
  }

  /** The step puts a new record in the place of the one that is live under this id. */
  predicate Replaces(s: State, s': State, id: string) {
    && id in s.httpRecords.vals && id in s'.httpRecords.vals
    && s'.replaced == s.replaced + {s.httpRecords.vals[id].serial}
    && s'.httpRecords.vals[id].serial == s.created
  }

  lemma EventReplaces(cfg: Config, s: State, ev: CdpEvent)
    ensures var s' := OnEvent(cfg, s, ev);
            s'.replaced == s.replaced || (ev.name == "Network.requestWillBeSent" && Replaces(s, s', ev.params.requestId))
  {
    KindReplaces(cfg, s, ev);
    WsTouchesNoRecord(cfg, OnHttpEvent(cfg, s, ev), ev);
  }

  /** Only a later request with the same id replaces a record: the one that was live. */
  lemma OnlyRequestsReplace(cfg: Config, s: State, input: Input)
    requires Enabled(s, input)
    ensures var s' := Step(cfg, s, input);
            s'.replaced == s.replaced ||
            (&& input.Received? && Decode(input.message).EventMsg?
             && var ev := Decode(input.message).event;
                ev.name == "Network.requestWillBeSent" && Replaces(s, s', ev.params.requestId))
  {
    match input
    case Received(message) =>
      if Decode(message).EventMsg? {
        EventReplaces(cfg, s, Decode(message).event);
      }
    case CleanupCalled(reason) =>
      EmitAllKeeps(s.(cleaned := true, stopReason := OrElse(s.stopReason, Some(reason))), s.httpRecords.keys);
    case PostArrives(_, _) =>
    case BodyArrives(_, _, _, _) =>
    case WriterCloses =>
  }

  lemma KindReplaces(cfg: Config, s: State, ev: CdpEvent)
    ensures OnHttpEvent(cfg, s, ev).replaced == s.replaced ||
            (&& ev.name == "Network.requestWillBeSent" && OnHttpEvent(cfg, s, ev) == RequestWillBeSent(cfg, s, ev)
             && ev.params.requestId in s.httpRecords.vals)
  {
    if ev.name != "Network.requestWillBeSent" {
      EmitsSpareTheRest(cfg, s, ev);
      OthersSpareTheRest(cfg, s, ev);
    }
  }

  /** Emitting touches records and output only. */
  lemma {:induction false} EmitAllKeeps(s: State, ids: seq<string>)
    ensures var s' := EmitAll(s, ids);
            && s'.wsConns == s.wsConns && s'.fetches == s.fetches && s'.replaced == s.replaced
            && s'.writerClosed == s.writerClosed && s'.cleaned == s.cleaned && s'.stopReason == s.stopReason
    decreases |ids|
  {
    if ids != [] {
      EmitAllKeeps(EmitHttpAndDelete(s, ids[0]), ids[1..]);
    }
  }

  // ---- a record's identity ----

  /** The same record, asked for with the same URL and verb under the same request id. */
  predicate SameIdentity(a: HttpRecord, b: HttpRecord) {
    a.serial == b.serial && a.requestId == b.requestId && a.url == b.url && a.verb == b.verb
  }

  /** `rec` is new in this step, or is a record the map held before it. */
  predicate ComesFrom(s: State, rec: HttpRecord) {
    rec.serial == s.created || (rec.requestId in s.httpRecords.vals && SameIdentity(s.httpRecords.vals[rec.requestId], rec))
  }

  ghost predicate Lineage(s: State, s': State) {
    && s.created <= s'.created && s.output <= s'.output
    && (forall k :: k in s'.httpRecords.vals ==> ComesFrom(s, s'.httpRecords.vals[k]))
    && (forall i :: |s.output| <= i < |s'.output| && s'.output[i].Http? ==> ComesFrom(s, s'.output[i].record))
  }

  lemma EmitLineage(s: State, mid: State, id: string)
    requires Lineage(s, mid)
    ensures Lineage(s, EmitHttpAndDelete(mid, id))
  {
  }

  lemma PutLineage(s: State, s': State, rec: HttpRecord)
    requires RecordsMatch(s) && ComesFrom(s, rec)
    requires s' == PutNew(s, rec) || s' == Update(s, rec)
    ensures Lineage(s, s')
  {
  }

  lemma FinishedLineage(cfg: Config, s: State, ev: CdpEvent)
    requires RecordsMatch(s)
    ensures Lineage(s, LoadingFinished(cfg, s, ev))
  {
    var id := ev.params.requestId;
    if id in s.httpRecords.vals {
      var rec := s.httpRecords.vals[id];
      var updated := rec.(raw := rec.raw + RawOf(cfg, ev));
      PutLineage(s, Update(s, updated), updated);
      EmitLineage(s, Update(s, updated), id);
    }
  }

  lemma FailedLineage(cfg: Config, s: State, ev: CdpEvent)
    requires RecordsMatch(s)
    ensures Lineage(s, LoadingFailed(cfg, s, ev))
  {
    var id := ev.params.requestId;
    var known := id in s.httpRecords.vals;
    var current := if known then s.httpRecords.vals[id] else NewRecord(cfg, s.created, ev, "", "");
    var rec := current.(error := Some(HttpError(ev.params.errorText, ev.params.canceled)),
                        raw := current.raw + RawOf(cfg, ev));
    var put := if known then Update(s, rec) else PutNew(s, rec);
    PutLineage(s, put, rec);
    EmitLineage(s, put, id);
  }

  lemma OthersLineage(cfg: Config, s: State, ev: CdpEvent)
    requires RecordsMatch(s)
    ensures Lineage(s, RequestExtraInfo(cfg, s, ev)) && Lineage(s, ResponseExtraInfo(cfg, s, ev))
    ensures Lineage(s, OtherHttpEvent(cfg, s, ev))
  {
    var id := ev.params.requestId;
    if id in s.httpRecords.vals {
      PutLineage(s, RequestExtraInfo(cfg, s, ev), RequestExtraInfo(cfg, s, ev).httpRecords.vals[id]);
      PutLineage(s, ResponseExtraInfo(cfg, s, ev), ResponseExtraInfo(cfg, s, ev).httpRecords.vals[id]);
    }
  }

  lemma NewRequestLineage(cfg: Config, s: State, ev: CdpEvent)
    requires RecordsMatch(s)
    ensures Lineage(s, RequestWillBeSent(cfg, s, ev))
  {
    var rec := NewRecord(cfg, s.created, ev, ev.params.requestUrl, ev.params.requestMethod);
    PutLineage(s, PutNew(s, rec), rec);
  }

  lemma ResponseLineage(cfg: Config, s: State, ev: CdpEvent)
    requires RecordsMatch(s)
    ensures Lineage(s, ResponseReceived(cfg, s, ev))
  {
    var s' := ResponseReceived(cfg, s, ev);
    if !cfg.httpOnly || IsHttpUrl(ev.params.responseUrl) {
      PutLineage(s, s', s'.httpRecords.vals[ev.params.requestId]);
    }
  }

  lemma KindLineage(cfg: Config, s: State, ev: CdpEvent, r: State)
    requires RecordsMatch(s) && OneKind(cfg, s, ev, r)
    ensures Lineage(s, r)
  {
    NewRequestLineage(cfg, s, ev);
    ResponseLineage(cfg, s, ev);
    OthersLineage(cfg, s, ev);
    FinishedLineage(cfg, s, ev);
    FailedLineage(cfg, s, ev);
  }

  lemma PostLineage(s: State, requestId: string, postData: Option<string>)
    requires RecordsMatch(s)
    ensures Lineage(s, PostFetched(s, requestId, postData))
  {
  }

  lemma BodyLineage(cfg: Config, s: State, requestId: string, message: Json, body: Option<string>, error: Option<string>)
    requires RecordsMatch(s)
    ensures Lineage(s, BodyFetched(cfg, s, requestId, message, body, error))
  {
    if requestId in s.httpRecords.vals {
      var rec := WithBody(cfg, s.httpRecords.vals[requestId], message, body, error);
      PutLineage(s, Update(s, rec), rec);
      var put := Update(s.(fetches := s.fetches - multiset{BodyFetch(requestId, message)}), rec);
      EmitLineage(s, put, requestId);
    }
  }

  lemma {:induction false} EmitAllLineage(s: State, mid: State, ids: seq<string>)
    requires Lineage(s, mid)
    ensures Lineage(s, EmitAll(mid, ids))
    decreases |ids|
  {
    if ids != [] {
      EmitLineage(s, mid, ids[0]);
      EmitAllLineage(s, EmitHttpAndDelete(mid, ids[0]), ids[1..]);
    }
  }

  lemma MsgLineage(cfg: Config, s: State, message: Json)
    requires RecordsMatch(s)
    ensures Lineage(s, OnMsg(cfg, s, message))
  {
    if Decode(message).EventMsg? && Admitted(cfg, Decode(message).event.targetId) {
      var ev := Decode(message).event;
      ByKind(cfg, s, ev);
      KindLineage(cfg, s, ev, OnHttpEvent(cfg, s, ev));
      WsLineage(cfg, s, OnHttpEvent(cfg, s, ev), ev);
    }
  }

  lemma WsLineage(cfg: Config, s: State, mid: State, ev: CdpEvent)
    requires Lineage(s, mid)
    ensures Lineage(s, OnWsEvent(cfg, mid, ev))
  {
    WsTouchesNoRecord(cfg, mid, ev);
    SameLineage(s, mid, OnWsEvent(cfg, mid, ev));
  }

  lemma WsTouchesNoRecord(cfg: Config, s: State, ev: CdpEvent)
    ensures var s' := OnWsEvent(cfg, s, ev);
            && s'.httpRecords == s.httpRecords && s'.created == s.created && s'.replaced == s.replaced && s.output <= s'.output
            && forall i :: |s.output| <= i < |s'.output| ==> !s'.output[i].Http?
  {
  }

  lemma SameLineage(s: State, mid: State, s': State)
    requires Lineage(s, mid) && s'.httpRecords == mid.httpRecords && s'.created == mid.created
    requires mid.output <= s'.output && forall i :: |mid.output| <= i < |s'.output| ==> !s'.output[i].Http?
    ensures Lineage(s, s')
  {
  }

  lemma StepLineage(cfg: Config, s: State, input: Input)
    requires RecordsMatch(s) && Enabled(s, input)
    ensures Lineage(s, Step(cfg, s, input))
  {
    match input
    case Received(message) => MsgLineage(cfg, s, message);
    case PostArrives(requestId, postData) => PostLineage(s, requestId, postData);
    case BodyArrives(requestId, message, body, error) => BodyLineage(cfg, s, requestId, message, body, error);
    case CleanupCalled(reason) =>
      EmitAllLineage(s, s.(cleaned := true, stopReason := OrElse(s.stopReason, Some(reason))), s.httpRecords.keys);
    case WriterCloses =>
  }

  /** Every later sighting of `rec`'s serial, in the map or newly in the output, is `rec`. */
  ghost predicate SightingsAgree(rec: HttpRecord, from: nat, s: State) {
    && (forall k :: k in s.httpRecords.vals && s.httpRecords.vals[k].serial == rec.serial ==>
          SameIdentity(rec, s.httpRecords.vals[k]))
    && (forall i :: from <= i < |s.output| && IsRecord(s.output[i], rec.serial) ==>
          SameIdentity(rec, s.output[i].record))
  }

  lemma StepSightings(cfg: Config, rec: HttpRecord, from: nat, s: State, s': State)
    requires Lineage(s, s') && SightingsAgree(rec, from, s) && rec.serial < s.created && from <= |s.output|
    ensures SightingsAgree(rec, from, s')
  {
    forall i | from <= i < |s'.output| && IsRecord(s'.output[i], rec.serial)
      ensures SameIdentity(rec, s'.output[i].record)
    {
      if i < |s.output| {
        assert s'.output[i] == s.output[i];
      } else {
        assert ComesFrom(s, s'.output[i].record);
      }
    }
  }

  /** What is written for a record is that record: through every later event, fetch and cleanup it keeps
      the request id, URL and verb it had when first seen in the map. */
  lemma {:induction false} RecordsKeepTheirIdentity(cfg: Config, states: seq<State>, inputs: seq<Input>,
                                                    n: nat, m: nat, key: string)
    requires IsRun(cfg, states, inputs) && n <= m < |states| && key in states[n].httpRecords.vals
    ensures SightingsAgree(states[n].httpRecords.vals[key], |states[n].output|, states[m])
    ensures states[n].created <= states[m].created && states[n].output <= states[m].output
    decreases m
  {
    RunBooks(cfg, states, inputs, n);
    var rec := states[n].httpRecords.vals[key];
    assert rec.serial in Live(states[n]);
    if n < m {
      RecordsKeepTheirIdentity(cfg, states, inputs, n, m - 1, key);
      RunBooks(cfg, states, inputs, m - 1);
      StepLineage(cfg, states[m - 1], inputs[m - 1]);
      StepSightings(cfg, rec, |states[n].output|, states[m - 1], states[m]);
    }
  }
}
