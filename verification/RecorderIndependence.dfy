/** Requests and connections do not interfere: what a run records about one of them is what the
    recorder would have recorded had it seen the inputs about that one alone. */
module RecorderIndependence {
  import opened Prelude
  import opened Json
  import opened RecorderState
  import opened RecorderRuns

  // ---- what a state holds about one id ----

  /** Serial numbers count the records of all requests, so they are left out. */
  function Unnumbered(rec: HttpRecord): HttpRecord { rec.(serial := 0) }

  function RecordOf(s: State, id: string): Option<HttpRecord> {
    if id in s.httpRecords.vals then Some(Unnumbered(s.httpRecords.vals[id])) else None
  }

  function ConnOf(s: State, id: string): Option<ConnMeta> {
    if id in s.wsConns then Some(s.wsConns[id]) else None
  }

  function Share(r: OutRecord, id: string): seq<OutRecord> {
    if !IsAbout(r, id) then [] else if r.Http? then [Http(Unnumbered(r.record))] else [r]
  }

  /** The records written about the id, in order. */
  function About(output: seq<OutRecord>, id: string): seq<OutRecord> {
    if output == [] then [] else About(output[..|output| - 1], id) + Share(output[|output| - 1], id)
  }

  /** The two states hold the same about the id: its record, its connection, what was written about it,
      the fetches under way for it; and both are as far in their cleanup. */
  ghost predicate Alike(s: State, t: State, id: string) {
    && RecordOf(s, id) == RecordOf(t, id)
    && ConnOf(s, id) == ConnOf(t, id)
    && About(s.output, id) == About(t.output, id)
    && SameFetches(s, t, id)
    && s.cleaned == t.cleaned && s.stopReason == t.stopReason && s.writerClosed == t.writerClosed
  }

  ghost predicate SameFetches(s: State, t: State, id: string) {
    forall f: Fetch :: f.requestId == id ==> s.fetches[f] == t.fetches[f]
  }

  lemma AboutSnoc(output: seq<OutRecord>, r: OutRecord, id: string)
    ensures About(output + [r], id) == About(output, id) + Share(r, id)
  {
    assert (output + [r])[..|output|] == output;
  }

  lemma {:induction false} AboutOthers(a: seq<OutRecord>, b: seq<OutRecord>, id: string)
    requires a <= b && forall i :: |a| <= i < |b| ==> !IsAbout(b[i], id)
    ensures About(b, id) == About(a, id)
    decreases |b|
  {
    if |a| < |b| {
      AboutOthers(a, b[..|b| - 1], id);
    } else {
      assert a == b;
    }
  }

  // ---- inputs about something else ----

  /** The input is about this id, or about the recorder as a whole. */
  predicate Concerns(input: Input, id: string) {
    match input
    case Received(message) => Decode(message).EventMsg? && Decode(message).event.params.requestId == id
    case PostArrives(requestId, _) => requestId == id
    case BodyArrives(requestId, _, _, _) => requestId == id
    case CleanupCalled(_) => true
    case WriterCloses => true
  }

  lemma KeptIsAlike(s: State, s': State, other: string, id: string)
    requires OthersKept(s, s', other) && other != id && SameFetches(s, s', id)
    requires s'.cleaned == s.cleaned && s'.stopReason == s.stopReason && s'.writerClosed == s.writerClosed
    ensures Alike(s, s', id)
  {
    forall i | |s.output| <= i < |s'.output|
      ensures !IsAbout(s'.output[i], id)
    {
      assert IsAbout(s'.output[i], other);
    }
    AboutOthers(s.output, s'.output, id);
  }

  lemma EmitsKeepFetches(cfg: Config, s: State, ev: CdpEvent, id: string)
    requires ev.params.requestId != id
    ensures SameFetches(s, LoadingFinished(cfg, s, ev), id) && SameFetches(s, LoadingFailed(cfg, s, ev), id)
  {
  }

  lemma OthersKeepFetches(cfg: Config, s: State, ev: CdpEvent, id: string)
    requires ev.params.requestId != id
    ensures SameFetches(s, RequestWillBeSent(cfg, s, ev), id) && SameFetches(s, RequestExtraInfo(cfg, s, ev), id)
    ensures SameFetches(s, ResponseReceived(cfg, s, ev), id) && SameFetches(s, ResponseExtraInfo(cfg, s, ev), id)
    ensures SameFetches(s, OtherHttpEvent(cfg, s, ev), id)
  {
  }

  lemma KindElsewhere(cfg: Config, s: State, ev: CdpEvent, r: State, id: string)
    requires RecordsMatch(s) && OneKind(cfg, s, ev, r) && ev.params.requestId != id
    ensures Alike(s, r, id)
  {
    KindIsLocal(cfg, s, ev, r);
    KindAppends(cfg, s, ev, r);
    EmitsKeepFetches(cfg, s, ev, id);
    OthersKeepFetches(cfg, s, ev, id);
    KeptIsAlike(s, r, ev.params.requestId, id);
  }

  lemma WsElsewhere(cfg: Config, s: State, ev: CdpEvent, id: string)
    requires ev.params.requestId != id
    ensures Alike(s, OnWsEvent(cfg, s, ev), id)
  {
    WsIsLocal(cfg, s, ev);
    WsAppends(cfg, s, ev);
    KeptIsAlike(s, OnWsEvent(cfg, s, ev), ev.params.requestId, id);
  }

  lemma AlikeTrans(a: State, b: State, c: State, id: string)
    requires Alike(a, b, id) && Alike(b, c, id)
    ensures Alike(a, c, id)
  {
  }

  lemma EventElsewhere(cfg: Config, s: State, ev: CdpEvent, id: string)
    requires RecordsMatch(s) && ev.params.requestId != id
    ensures Alike(s, OnEvent(cfg, s, ev), id)
  {
    if Admitted(cfg, ev.targetId) {
      var mid := OnHttpEvent(cfg, s, ev);
      ByKind(cfg, s, ev);
      KindElsewhere(cfg, s, ev, mid, id);
      WsElsewhere(cfg, mid, ev, id);
      AlikeTrans(s, mid, OnWsEvent(cfg, mid, ev), id);
    }
  }

  lemma MessageElsewhere(cfg: Config, s: State, message: Json, id: string)
    requires RecordsMatch(s) && !Concerns(Received(message), id)
    ensures Alike(s, OnMsg(cfg, s, message), id)
  {
    match Decode(message)
    case EventMsg(ev) => EventElsewhere(cfg, s, ev, id);
    case ParseErrorMsg(raw) => AboutSnoc(s.output, StreamError(raw), id);
    case StatusMsg => AboutSnoc(s.output, StatusRecord, id);
    case BadEventMsg(_) =>
    case OtherMsg =>
  }

  lemma PostElsewhere(s: State, requestId: string, postData: Option<string>, id: string)
    requires RecordsMatch(s) && requestId != id
    ensures Alike(s, PostFetched(s, requestId, postData), id)
  {
  }

  lemma BodyElsewhere(cfg: Config, s: State, requestId: string, message: Json,
                      body: Option<string>, error: Option<string>, id: string)
    requires RecordsMatch(s) && requestId != id
    ensures Alike(s, BodyFetched(cfg, s, requestId, message, body, error), id)
  {
    var done := s.(fetches := s.fetches - multiset{BodyFetch(requestId, message)});
    assert Alike(s, done, id);
    if requestId in s.httpRecords.vals {
      RecordElsewhere(done, WithBody(cfg, s.httpRecords.vals[requestId], message, body, error), id);
    }
  }

  lemma RecordElsewhere(s: State, rec: HttpRecord, id: string)
    requires rec.requestId != id
    ensures Alike(s, EmitHttpAndDelete(Update(s, rec), rec.requestId), id)
  {
    AboutSnoc(s.output, Http(rec), id);
  }

  /** An input that does not concern the id changes nothing about it. */
  lemma OthersDoNotTouch(cfg: Config, s: State, input: Input, id: string)
    requires RecordsMatch(s) && Enabled(s, input) && !Concerns(input, id)
    ensures Alike(s, Step(cfg, s, input), id)
  {
    match input
    case Received(message) => MessageElsewhere(cfg, s, message, id);
    case PostArrives(requestId, postData) => PostElsewhere(s, requestId, postData, id);
    case BodyArrives(requestId, message, body, error) => BodyElsewhere(cfg, s, requestId, message, body, error, id);
  }

  // ---- inputs about the id ----

  lemma EmitAlike(s: State, t: State, id: string)
    requires Alike(s, t, id)
    ensures Alike(EmitHttpAndDelete(s, id), EmitHttpAndDelete(t, id), id)
  {
    if id in s.httpRecords.vals {
      AboutSnoc(s.output, Http(s.httpRecords.vals[id]), id);
      AboutSnoc(t.output, Http(t.httpRecords.vals[id]), id);
      assert Unnumbered(s.httpRecords.vals[id]) == Unnumbered(t.httpRecords.vals[id]);
      ShareUnnumbered(s.httpRecords.vals[id], t.httpRecords.vals[id], id);
    }
  }

  lemma ShareUnnumbered(a: HttpRecord, b: HttpRecord, id: string)
    requires Unnumbered(a) == Unnumbered(b)
    ensures Share(Http(a), id) == Share(Http(b), id)
  {
    assert a.requestId == Unnumbered(a).requestId == b.requestId;
  }

  lemma RequestAlike(cfg: Config, s: State, t: State, ev: CdpEvent)
    requires Alike(s, t, ev.params.requestId)
    ensures Alike(RequestWillBeSent(cfg, s, ev), RequestWillBeSent(cfg, t, ev), ev.params.requestId)
  {
  }

  /** The record after an event depends on the record before it, but for its number. */
  lemma SameFields(a: HttpRecord, b: HttpRecord)
    requires Unnumbered(a) == Unnumbered(b)
    ensures b == a.(serial := b.serial)
  {
    assert b == Unnumbered(b).(serial := b.serial) == Unnumbered(a).(serial := b.serial);
  }

  lemma ExtraAlike(cfg: Config, s: State, t: State, ev: CdpEvent)
    requires Alike(s, t, ev.params.requestId) && RecordsMatch(s) && RecordsMatch(t)
    ensures Alike(RequestExtraInfo(cfg, s, ev), RequestExtraInfo(cfg, t, ev), ev.params.requestId)
    ensures Alike(ResponseExtraInfo(cfg, s, ev), ResponseExtraInfo(cfg, t, ev), ev.params.requestId)
    ensures Alike(OtherHttpEvent(cfg, s, ev), OtherHttpEvent(cfg, t, ev), ev.params.requestId)
  {
    var id := ev.params.requestId;
    if id in s.httpRecords.vals {
      SameFields(s.httpRecords.vals[id], t.httpRecords.vals[id]);
    }
  }

  lemma ResponseAlike(cfg: Config, s: State, t: State, ev: CdpEvent)
    requires Alike(s, t, ev.params.requestId) && RecordsMatch(s) && RecordsMatch(t)
    ensures Alike(ResponseReceived(cfg, s, ev), ResponseReceived(cfg, t, ev), ev.params.requestId)
  {
    var id := ev.params.requestId;
    if id in s.httpRecords.vals {
      SameFields(s.httpRecords.vals[id], t.httpRecords.vals[id]);
    }
  }

  lemma FinishedAlike(cfg: Config, s: State, t: State, ev: CdpEvent)
    requires Alike(s, t, ev.params.requestId) && RecordsMatch(s) && RecordsMatch(t)
    ensures Alike(LoadingFinished(cfg, s, ev), LoadingFinished(cfg, t, ev), ev.params.requestId)
  {
    var id := ev.params.requestId;
    if id in s.httpRecords.vals {
      var a, b := s.httpRecords.vals[id], t.httpRecords.vals[id];
      SameFields(a, b);
      EmitAlike(Update(s, a.(raw := a.raw + RawOf(cfg, ev))), Update(t, b.(raw := b.raw + RawOf(cfg, ev))), id);
    }
  }

  lemma FailedAlike(cfg: Config, s: State, t: State, ev: CdpEvent)
    requires Alike(s, t, ev.params.requestId) && RecordsMatch(s) && RecordsMatch(t)
    ensures Alike(LoadingFailed(cfg, s, ev), LoadingFailed(cfg, t, ev), ev.params.requestId)
  {
    var p, id := ev.params, ev.params.requestId;
    var known := id in s.httpRecords.vals;
    var a := if known then s.httpRecords.vals[id] else NewRecord(cfg, s.created, ev, "", "");
    var b := if known then t.httpRecords.vals[id] else NewRecord(cfg, t.created, ev, "", "");
    SameFields(a, b);
    var a' := a.(error := Some(HttpError(p.errorText, p.canceled)), raw := a.raw + RawOf(cfg, ev));
    var b' := b.(error := Some(HttpError(p.errorText, p.canceled)), raw := b.raw + RawOf(cfg, ev));
    EmitAlike(if known then Update(s, a') else PutNew(s, a'), if known then Update(t, b') else PutNew(t, b'), id);
  }

  /** `r` and `q` are what one kind of HTTP event, or none, makes of `s` and `t`. */
  predicate SameKind(cfg: Config, s: State, t: State, ev: CdpEvent, r: State, q: State) {
    || (r == s && q == t)
    || (r == RequestWillBeSent(cfg, s, ev) && q == RequestWillBeSent(cfg, t, ev))
    || (r == RequestExtraInfo(cfg, s, ev) && q == RequestExtraInfo(cfg, t, ev))
    || (r == ResponseReceived(cfg, s, ev) && q == ResponseReceived(cfg, t, ev))
    || (r == ResponseExtraInfo(cfg, s, ev) && q == ResponseExtraInfo(cfg, t, ev))
    || (r == LoadingFinished(cfg, s, ev) && q == LoadingFinished(cfg, t, ev))
    || (r == LoadingFailed(cfg, s, ev) && q == LoadingFailed(cfg, t, ev))
    || (r == OtherHttpEvent(cfg, s, ev) && q == OtherHttpEvent(cfg, t, ev))
  }

  lemma BySameKind(cfg: Config, s: State, t: State, ev: CdpEvent)
    ensures SameKind(cfg, s, t, ev, OnHttpEvent(cfg, s, ev), OnHttpEvent(cfg, t, ev))
  {
  }

  lemma KindAlike(cfg: Config, s: State, t: State, ev: CdpEvent, r: State, q: State)
    requires Alike(s, t, ev.params.requestId) && RecordsMatch(s) && RecordsMatch(t) && SameKind(cfg, s, t, ev, r, q)
    ensures Alike(r, q, ev.params.requestId)
  {
    RequestAlike(cfg, s, t, ev);
    ExtraAlike(cfg, s, t, ev);
    ResponseAlike(cfg, s, t, ev);
    FinishedAlike(cfg, s, t, ev);
    FailedAlike(cfg, s, t, ev);
  }

  lemma WsAlike(cfg: Config, s: State, t: State, ev: CdpEvent)
    requires Alike(s, t, ev.params.requestId)
    ensures Alike(OnWsEvent(cfg, s, ev), OnWsEvent(cfg, t, ev), ev.params.requestId)
  {
    var id := ev.params.requestId;
    NamedAlike(s, t, ev);
    if cfg.includeWs && IsWebSocketEvent(ev) && id != "" {
      var judged, kind := Judge(cfg, NamedConn(s, ev)), WsKind(ev.name);
      if judged.filteredOut || kind == "" {
        KeepAlike(s, t, id, judged);
      } else {
        StoreAlike(s, t, id, judged, kind);
      }
    }
  }

  lemma KeepAlike(s: State, t: State, id: string, conn: ConnMeta)
    requires Alike(s, t, id)
    ensures Alike(s.(wsConns := s.wsConns[id := conn]), t.(wsConns := t.wsConns[id := conn]), id)
  {
  }

  lemma NamedAlike(s: State, t: State, ev: CdpEvent)
    requires ConnOf(s, ev.params.requestId) == ConnOf(t, ev.params.requestId)
    ensures NamedConn(s, ev) == NamedConn(t, ev)
  {
    var id := ev.params.requestId;
    assert id in s.wsConns ==> ConnOf(s, id) == Some(s.wsConns[id]);
    assert id in t.wsConns ==> ConnOf(t, id) == Some(t.wsConns[id]);
  }

  lemma StoreAlike(s: State, t: State, id: string, conn: ConnMeta, kind: string)
    requires Alike(s, t, id)
    ensures var s1, t1 := s.(wsConns := s.wsConns[id := conn]), t.(wsConns := t.wsConns[id := conn]);
            var s2, t2 := Write(s1, Ws(kind, conn.targetId, id, conn.url)), Write(t1, Ws(kind, conn.targetId, id, conn.url));
            Alike(s2, t2, id) && Alike(s2.(wsConns := s2.wsConns - {id}), t2.(wsConns := t2.wsConns - {id}), id)
  {
    AboutSnoc(s.output, Ws(kind, conn.targetId, id, conn.url), id);
    AboutSnoc(t.output, Ws(kind, conn.targetId, id, conn.url), id);
  }

  lemma PostAlike(s: State, t: State, id: string, postData: Option<string>)
    requires Alike(s, t, id) && RecordsMatch(s) && RecordsMatch(t)
    ensures Alike(PostFetched(s, id, postData), PostFetched(t, id, postData), id)
  {
    if id in s.httpRecords.vals {
      SameFields(s.httpRecords.vals[id], t.httpRecords.vals[id]);
    }
  }

  lemma UpdateAlike(s: State, t: State, a: HttpRecord, b: HttpRecord, id: string)
    requires Alike(s, t, id) && Unnumbered(a) == Unnumbered(b) && a.requestId == b.requestId == id
    ensures Alike(Update(s, a), Update(t, b), id)
  {
  }

  lemma BodyAlike(cfg: Config, s: State, t: State, id: string, message: Json, body: Option<string>, error: Option<string>)
    requires Alike(s, t, id) && RecordsMatch(s) && RecordsMatch(t)
    ensures Alike(BodyFetched(cfg, s, id, message, body, error), BodyFetched(cfg, t, id, message, body, error), id)
  {
    var s1 := s.(fetches := s.fetches - multiset{BodyFetch(id, message)});
    var t1 := t.(fetches := t.fetches - multiset{BodyFetch(id, message)});
    assert Alike(s1, t1, id);
    if id in s.httpRecords.vals {
      var a, b := s.httpRecords.vals[id], t.httpRecords.vals[id];
      SameFields(a, b);
      var a', b' := WithBody(cfg, a, message, body, error), WithBody(cfg, b, message, body, error);
      UpdateAlike(s1, t1, a', b', id);
      EmitAlike(Update(s1, a'), Update(t1, b'), id);
    }
  }

  /** What cleanup writes about the id is the record live under it. */
  lemma {:induction false} EmitAllAbout(s: State, ids: seq<string>, id: string)
    requires forall k :: k in s.httpRecords.vals ==> s.httpRecords.vals[k].requestId == k
    ensures var s' := EmitAll(s, ids);
            && About(s'.output, id) == About(s.output, id) +
                 (if id in ids && id in s.httpRecords.vals && !s.writerClosed then [Http(RecordOf(s, id).value)] else [])
            && RecordOf(s', id) == (if id in ids then None else RecordOf(s, id))
    decreases |ids|
  {
    if ids != [] {
      var next := EmitHttpAndDelete(s, ids[0]);
      EmitOneAbout(s, ids[0], id);
      assert forall k :: k in next.httpRecords.vals ==> next.httpRecords.vals[k].requestId == k;
      EmitAllAbout(next, ids[1..], id);
      assert id in ids <==> id == ids[0] || id in ids[1..];
    }
  }

  lemma EmitOneAbout(s: State, k: string, id: string)
    requires forall k :: k in s.httpRecords.vals ==> s.httpRecords.vals[k].requestId == k
    ensures var s' := EmitHttpAndDelete(s, k);
            && About(s'.output, id) == About(s.output, id) +
                 (if id == k && id in s.httpRecords.vals && !s.writerClosed then [Http(RecordOf(s, id).value)] else [])
            && RecordOf(s', id) == (if id == k then None else RecordOf(s, id)) && s'.writerClosed == s.writerClosed
  {
    if k in s.httpRecords.vals {
      AboutSnoc(s.output, Http(s.httpRecords.vals[k]), id);
    }
  }

  lemma CleanupAlike(s: State, t: State, reason: string, id: string)
    requires Alike(s, t, id) && RecordsMatch(s) && RecordsMatch(t)
    ensures Alike(Cleanup(s, reason), Cleanup(t, reason), id)
  {
    if !s.cleaned {
      var s1 := s.(cleaned := true, stopReason := OrElse(s.stopReason, Some(reason)));
      var t1 := t.(cleaned := true, stopReason := OrElse(t.stopReason, Some(reason)));
      EmitAllAbout(s1, s.httpRecords.keys, id);
      EmitAllKeeps(s1, s.httpRecords.keys);
      EmitAllKeeps(t1, t.httpRecords.keys);
      EmitAllAbout(t1, t.httpRecords.keys, id);
      AboutSnoc(EmitAll(s1, s.httpRecords.keys).output, Stopped(reason), id);
      AboutSnoc(EmitAll(t1, t.httpRecords.keys).output, Stopped(reason), id);
    }
  }

  /** An input about the id does to states that are alike what leaves them alike. */
  lemma SameInputSameEffect(cfg: Config, s: State, t: State, input: Input, id: string)
    requires RecordsMatch(s) && RecordsMatch(t) && Alike(s, t, id) && Enabled(s, input) && Concerns(input, id)
    ensures Enabled(t, input) && Alike(Step(cfg, s, input), Step(cfg, t, input), id)
  {
    match input
    case Received(message) =>
      var ev := Decode(message).event;
      BySameKind(cfg, s, t, ev);
      KindAlike(cfg, s, t, ev, OnHttpEvent(cfg, s, ev), OnHttpEvent(cfg, t, ev));
      WsAlike(cfg, OnHttpEvent(cfg, s, ev), OnHttpEvent(cfg, t, ev), ev);
    case PostArrives(_, postData) => PostAlike(s, t, id, postData);
    case BodyArrives(_, message, body, error) => BodyAlike(cfg, s, t, id, message, body, error);
    case CleanupCalled(reason) => CleanupAlike(s, t, reason, id);
    case WriterCloses =>
  }

  // ---- runs ----

  /** The inputs that concern the id, in order. */
  function Project(inputs: seq<Input>, id: string): seq<Input> {
    if inputs == [] then []
    else
      var last := inputs[|inputs| - 1];
      Project(inputs[..|inputs| - 1], id) + (if Concerns(last, id) then [last] else [])
  }

  lemma ShorterRun(cfg: Config, states: seq<State>, inputs: seq<Input>, n: nat)
    requires IsRun(cfg, states, inputs) && n == |inputs| - 1
    ensures IsRun(cfg, states[..n + 1], inputs[..n])
    ensures Enabled(states[n], inputs[n]) && states[n + 1] == Step(cfg, states[n], inputs[n])
  {
    assert forall i {:trigger inputs[i]} :: 0 <= i < n ==> inputs[..n][i] == inputs[i];
  }

  lemma LongerRun(cfg: Config, states: seq<State>, inputs: seq<Input>, input: Input)
    requires IsRun(cfg, states, inputs) && Enabled(states[|inputs|], input)
    ensures IsRun(cfg, states + [Step(cfg, states[|inputs|], input)], inputs + [input])
  {
    var more := inputs + [input];
    assert forall i {:trigger more[i]} :: 0 <= i < |inputs| ==> more[i] == inputs[i];
  }

  lemma StepAlike(cfg: Config, s: State, t: State, input: Input, id: string)
    requires RecordsMatch(s) && RecordsMatch(t) && Alike(s, t, id) && Enabled(s, input)
    ensures if Concerns(input, id) then Enabled(t, input) && Alike(Step(cfg, s, input), Step(cfg, t, input), id)
            else Alike(Step(cfg, s, input), t, id)
  {
    if Concerns(input, id) {
      SameInputSameEffect(cfg, s, t, input, id);
    } else {
      OthersDoNotTouch(cfg, s, input, id);
    }
  }

  /** Whatever else goes on, a run records about one request or connection what it would record if it
      got the inputs about that one alone: the same record, connection, output and fetches. */
  lemma {:induction false} RequestsDoNotInterfere(cfg: Config, states: seq<State>, inputs: seq<Input>, id: string)
    returns (alone: seq<State>)
    requires IsRun(cfg, states, inputs)
    ensures IsRun(cfg, alone, Project(inputs, id))
    ensures Alike(states[|inputs|], alone[|Project(inputs, id)|], id)
    decreases |inputs|
  {
    if inputs == [] {
      alone := [INIT];
    } else {
      var n := |inputs| - 1;
      ShorterRun(cfg, states, inputs, n);
      var before := RequestsDoNotInterfere(cfg, states[..n + 1], inputs[..n], id);
      var done := Project(inputs[..n], id);
      RunBooks(cfg, states, inputs, n);
      RunBooks(cfg, before, done, |done|);
      StepAlike(cfg, states[n], before[|done|], inputs[n], id);
      alone := before;
      if Concerns(inputs[n], id) {
        LongerRun(cfg, before, done, inputs[n]);
        alone := before + [Step(cfg, before[|done|], inputs[n])];
      } else {
        assert Project(inputs, id) == done;
      }
    }
  }

  // ---- nothing is invented ----

  /** The recorder holds or has written something about the id. */
  ghost predicate Knows(s: State, id: string) {
    id in s.httpRecords.vals || id in s.wsConns || About(s.output, id) != []
  }

  ghost predicate IsEventAbout(input: Input, id: string) { input.Received? && Concerns(input, id) }

  lemma StartKnowsNothing(id: string)
    ensures !Knows(INIT, id)
  {
    AboutSnoc([], Started, id);
    assert [] + [Started] == [Started];
  }

  lemma CleanupKnows(s: State, reason: string, id: string)
    requires RecordsMatch(s) && !Knows(s, id)
    ensures !Knows(Cleanup(s, reason), id)
  {
    if !s.cleaned {
      var stopped := s.(cleaned := true, stopReason := OrElse(s.stopReason, Some(reason)));
      EmitAllAbout(stopped, s.httpRecords.keys, id);
      EmitAllKeeps(stopped, s.httpRecords.keys);
      AboutSnoc(EmitAll(stopped, s.httpRecords.keys).output, Stopped(reason), id);
      assert RecordOf(EmitAll(stopped, s.httpRecords.keys), id) == None;
    }
  }

  lemma AlikeKnows(s: State, t: State, id: string)
    requires Alike(s, t, id)
    ensures Knows(s, id) <==> Knows(t, id)
  {
  }

  lemma StepKnows(cfg: Config, s: State, input: Input, id: string)
    requires RecordsMatch(s) && Enabled(s, input) && !Knows(s, id) && !IsEventAbout(input, id)
    ensures !Knows(Step(cfg, s, input), id)
  {
    if !Concerns(input, id) {
      OthersDoNotTouch(cfg, s, input, id);
      AlikeKnows(s, Step(cfg, s, input), id);
    } else if input.CleanupCalled? {
      CleanupKnows(s, input.reason, id);
    } else {
      assert Step(cfg, s, input).httpRecords == s.httpRecords && Step(cfg, s, input).output == s.output;
    }
  }

  /** Whatever the recorder holds or has written about an id, it got an event about that id before. */
  lemma {:induction false} NothingIsInvented(cfg: Config, states: seq<State>, inputs: seq<Input>, n: nat, id: string)
    returns (i: nat)
    requires IsRun(cfg, states, inputs) && n < |states| && Knows(states[n], id)
    ensures i < n && IsEventAbout(inputs[i], id)
  {
    StartKnowsNothing(id);
    if n == 0 {
      assert false;
    } else if IsEventAbout(inputs[n - 1], id) {
      i := n - 1;
    } else {
      RunBooks(cfg, states, inputs, n - 1);
      assert Enabled(states[n - 1], inputs[n - 1]);
      if !Knows(states[n - 1], id) {
        StepKnows(cfg, states[n - 1], inputs[n - 1], id);
      }
      i := NothingIsInvented(cfg, states, inputs, n - 1, id);
    }
  }

  /** A record in the output is among those about its id. */
  lemma {:induction false} WrittenIsKnown(output: seq<OutRecord>, i: nat, id: string)
    requires i < |output| && IsAbout(output[i], id)
    ensures About(output, id) != []
    decreases |output|
  {
    if i < |output| - 1 {
      WrittenIsKnown(output[..|output| - 1], i, id);
    }
  }
}
