/** The relay as a program: its variables, and its handlers as methods that update them in place. */
module RelayServer {
  import opened Prelude
  import opened Json
  import opened Messages
  import opened RelayState
  import RelayRuns

  /** One entry of a JavaScript `Map`'s data list. Deleting leaves the place empty, so that an
      iteration under way neither skips nor repeats an entry (ECMA-262, section 24.1). */
  datatype Slot = Free | Taken(id: nat, timer: TimerId)

  ghost predicate Distinct(slots: seq<Slot>) {
    forall i, j :: 0 <= i < j < |slots| && slots[i].Taken? && slots[j].Taken? ==> slots[i].id != slots[j].id
  }

  ghost function Entries(slots: seq<Slot>): map<nat, TimerId>
    requires Distinct(slots)
  {
    map i | 0 <= i < |slots| && slots[i].Taken? :: slots[i].id := slots[i].timer
  }

  function SlotOf(slots: seq<Slot>, id: nat): (r: Option<nat>)
    ensures r.Some? ==> r.value < |slots| && slots[r.value].Taken? && slots[r.value].id == id
    ensures r.None? ==> forall i :: 0 <= i < |slots| && slots[i].Taken? ==> slots[i].id != id
  {
    if slots == [] then None
    else
      var n := |slots| - 1;
      if slots[n].Taken? && slots[n].id == id then Some(n) else SlotOf(slots[..n], id)
  }

  lemma AddEntry(slots: seq<Slot>, id: nat, timer: TimerId)
    requires Distinct(slots) && id !in Entries(slots)
    ensures Distinct(slots + [Taken(id, timer)])
    ensures Entries(slots + [Taken(id, timer)]) == Entries(slots)[id := timer]
  {
    var more := slots + [Taken(id, timer)];
    assert forall i :: 0 <= i < |slots| && slots[i].Taken? ==> slots[i].id in Entries(slots);
    assert more[|slots|] == Taken(id, timer);
    assert forall i :: 0 <= i < |slots| ==> more[i] == slots[i];
  }

  lemma FreeEntry(slots: seq<Slot>, i: nat)
    requires Distinct(slots) && i < |slots| && slots[i].Taken?
    ensures Distinct(slots[i := Free])
    ensures slots[i].id in Entries(slots) && Entries(slots)[slots[i].id] == slots[i].timer
    ensures Entries(slots[i := Free]) == Entries(slots) - {slots[i].id}
  {
    var less := slots[i := Free];
    assert forall j :: 0 <= j < |slots| && j != i ==> less[j] == slots[j];
  }

  function Without(clients: seq<ClientId>, c: ClientId): (r: seq<ClientId>)
    ensures forall d :: d in r <==> d in clients && d != c
  {
    if clients == [] then []
    else if clients[0] == c then Without(clients[1..], c)
    else [clients[0]] + Without(clients[1..], c)
  }

  lemma {:induction false} WithoutNoDup(clients: seq<ClientId>, c: ClientId)
    requires NoDup(clients)
    ensures NoDup(Without(clients, c))
  {
    if clients != [] {
      var tail, kept := clients[1..], Without(clients[1..], c);
      assert forall k :: 0 <= k < |tail| ==> tail[k] == clients[k + 1];
      WithoutNoDup(tail, c);
      assert forall k :: 0 <= k < |kept| ==> kept[k] in kept && kept[k] in tail;
      assert clients[0] !in tail;
    }
  }

  ghost function Elements(clients: seq<ClientId>): set<ClientId> { set c | c in clients }

  // ---- how far the two loops have come ----

  /** `FailAll`, done for the given ids only. */
  ghost function FailSome(s: State, ids: set<nat>, origin: Origin, info: ErrorInfo): State {
    s.(timers := s.timers - (set id | id in ids && id in s.pending :: s.pending[id]),
       pending := s.pending - ids,
       issues := Resolve(s.issues, ids, origin, id => ErrorResponse(id, info)))
  }

  lemma FailOneMore(s: State, ids: set<nat>, id: nat, origin: Origin, info: ErrorInfo)
    requires id !in ids && id in s.pending
    ensures Respond(FailSome(s, ids, origin, info), id, origin, ErrorResponse(id, info)) ==
            FailSome(s, ids + {id}, origin, info)
  {
    var one := Respond(FailSome(s, ids, origin, info), id, origin, ErrorResponse(id, info));
    var both := FailSome(s, ids + {id}, origin, info);
    assert one.pending == both.pending;
    assert one.timers == both.timers;
    assert one.issues == both.issues;
  }

  lemma FailedAll(s: State, origin: Origin, info: ErrorInfo)
    ensures FailSome(s, s.pending.Keys, origin, info) == FailAll(s, origin, info)
    ensures FailSome(s, {}, origin, info) == s
  {
    assert (set id | id in s.pending.Keys && id in s.pending :: s.pending[id]) == s.pending.Values;
    assert s.pending - s.pending.Keys == map[];
    var none := FailSome(s, {}, origin, info);
    assert none.timers == s.timers && none.pending == s.pending && none.issues == s.issues;
  }

  /** `Broadcast`, done for the given clients only. */
  ghost function PushTo(s: State, done: set<ClientId>, push: Push, broken: set<ClientId>): State {
    s.(sseClients := s.sseClients - (done * broken),
       broadcasts := s.broadcasts + [push],
       feeds := map c | c in s.feeds ::
         if c in done && c !in broken then s.feeds[c].(frames := s.feeds[c].frames + [Data(push)]) else s.feeds[c])
  }

  lemma PushedToAll(s: State, push: Push, broken: set<ClientId>)
    ensures PushTo(s, s.sseClients, push, broken) == Broadcast(s, push, broken)
    ensures PushTo(s, {}, push, broken) == s.(broadcasts := s.broadcasts + [push])
  {
    assert s.sseClients - (s.sseClients * broken) == s.sseClients - broken;
    assert s.sseClients - ({} * broken) == s.sseClients;
    assert PushTo(s, {}, push, broken).feeds == s.feeds;
    assert PushTo(s, s.sseClients, push, broken).feeds == Broadcast(s, push, broken).feeds;
  }

  /** The block of one client. */
  ghost function PushOne(s: State, c: ClientId, push: Push, broken: set<ClientId>): State
    requires c in s.feeds
  {
    if c in broken then s.(sseClients := s.sseClients - {c})
    else s.(feeds := s.feeds[c := s.feeds[c].(frames := s.feeds[c].frames + [Data(push)])])
  }

  lemma PushOneMore(s: State, done: set<ClientId>, c: ClientId, push: Push, broken: set<ClientId>)
    requires c !in done && c in s.feeds
    ensures PushOne(PushTo(s, done, push, broken), c, push, broken) == PushTo(s, done + {c}, push, broken)
  {
    var one, both := PushOne(PushTo(s, done, push, broken), c, push, broken), PushTo(s, done + {c}, push, broken);
    assert one.sseClients == both.sseClients;
    assert one.feeds == both.feeds;
  }

  class Relay {
    var extension: Option<SocketId>
    var nextId: nat
    var pending: seq<Slot>
    var extensionKeepaliveId: Option<IntervalId>
    var sseClients: seq<ClientId>

    // what the host keeps for the relay
    var timers: map<TimerId, Alarm>
    var nextTimer: TimerId
    var intervals: map<IntervalId, SocketId>
    var nextInterval: IntervalId

    // what became of every request and of every client's stream
    var issues: seq<Issue>
    var broadcasts: seq<Push>
    var feeds: map<ClientId, Feed>

    ghost predicate Rep()
      reads this
    {
      && Distinct(pending)
      && (forall id :: id in Entries(pending) ==> 1 <= id <= |issues|)
      && NoDup(sseClients)
      && (forall c :: c in sseClients ==> c in feeds)
    }

    ghost function Abs(): State
      reads this
      requires Rep()
    {
      State(extension, nextId, Entries(pending), extensionKeepaliveId, Elements(sseClients),
            timers, nextTimer, intervals, nextInterval, issues, broadcasts, feeds)
    }

    /** The object invariant: every state between two handlers satisfies the relay's invariant. */
    ghost predicate Valid()
      reads this
    {
      Rep() && RelayRuns.Inv(Abs())
    }

    constructor ()
      ensures Valid() && Abs() == INIT
    {
      extension, nextId, pending, extensionKeepaliveId, sseClients := None, 1, [], None, [];
      timers, nextTimer, intervals, nextInterval := map[], 0, map[], 0;
      issues, broadcasts, feeds := [], [], map[];
    }

    /** A request's promise is resolved. */
    method ResolvePromise(id: nat, origin: Origin, response: Response)
      requires 1 <= id <= |issues|
      modifies this`issues
      ensures issues == Resolve(old(issues), {id}, origin, _ => response)
    {
      var issue := issues[id - 1];
      issues := issues[id - 1 := issue.(resolutions := issue.resolutions + [Resolution(origin, response)])];
    }

    method RespondPending(pendingId: nat, origin: Origin, msg: Response)
      requires Rep()
      modifies this
      ensures Rep() && Abs() == Respond(old(Abs()), pendingId, origin, msg)
    {
      var at := SlotOf(pending, pendingId);
      if at == None {
        return;
      }
      FreeEntry(pending, at.value);
      timers := timers - {pending[at.value].timer};
      pending := pending[at.value := Free];
      ResolvePromise(pendingId, origin, msg);
    }

    /** One round of the loop below. */
    method FailSlot(at: nat, origin: Origin, info: ErrorInfo)
      requires Rep() && at < |pending| && pending[at].Taken?
      modifies this
      ensures Rep() && pending == old(pending)[at := Free]
      ensures old(pending)[at].id in old(Abs()).pending
      ensures Abs() == Respond(old(Abs()), old(pending)[at].id, origin,
                               ErrorResponse(old(pending)[at].id, info))
    {
      var id := pending[at].id;
      FreeEntry(pending, at);
      timers := timers - {pending[at].timer};
      pending := pending[at := Free];
      ResolvePromise(id, origin, ErrorResponse(id, info));
    }

    /** The loop deletes from the map it iterates over. */
    method FailAllPending(origin: Origin, info: ErrorInfo)
      requires Rep()
      modifies this
      ensures Rep() && Abs() == FailAll(old(Abs()), origin, info)
    {
      ghost var before, failed := Abs(), {};
      FailedAll(before, origin, info);
      var cursor := 0;
      while cursor < |pending|
        invariant cursor <= |pending|
        invariant forall i :: 0 <= i < cursor ==> pending[i].Free?
        invariant Rep() && failed <= before.pending.Keys
        invariant Abs() == FailSome(before, failed, origin, info)
        decreases |pending| - cursor
      {
        if pending[cursor].Taken? {
          ghost var id := pending[cursor].id;
          FailSlot(cursor, origin, info);
          FailOneMore(before, failed, id, origin, info);
          failed := failed + {id};
        }
        cursor := cursor + 1;
      }
      assert Entries(pending) == map[];
      assert failed == before.pending.Keys by {
        assert before.pending - failed == map[];
        assert forall id :: id in before.pending && id !in failed ==> id in before.pending - failed;
      }
    }

    method SendCommandToExtension(id: nat, wait: Wait, open: set<SocketId>, sending: Sending)
      requires Rep() && id == |issues| == nextId - 1 && id > 0 && issues[id - 1].resolutions == []
      requires forall i :: i in Entries(pending) ==> i < id
      modifies this
      ensures Rep()
      ensures Abs() ==
              var drawn := old(Abs());
              if Route(drawn, open).None? then
                drawn.(issues := Resolve(drawn.issues, {id}, NotConnected, _ => ErrorResponse(id, NOT_CONNECTED)))
              else if sending.Sent? then Arm(drawn, id, wait)
              else Respond(Arm(drawn, id, wait), id, SendFailed, ErrorResponse(id, SendFailure(sending.cause)))
    {
      if extension == None || extension.value !in open {
        ResolvePromise(id, NotConnected, ErrorResponse(id, NOT_CONNECTED));
        return;
      }
      var timer := nextTimer;
      timers, nextTimer := timers[timer := Alarm(id, wait)], nextTimer + 1;
      AddEntry(pending, id, timer);
      pending := pending + [Taken(id, timer)];
      assert Rep() && Abs() == Arm(old(Abs()), id, wait);
      if sending.Throws? {
        RespondPending(id, SendFailed, ErrorResponse(id, SendFailure(sending.cause)));
      }
    }

    /** An HTTP request whose body was accepted, or a health probe. */
    method HandleCommand(kind: string, params: Json, wait: Wait, open: set<SocketId>, sending: Sending)
      requires Valid()
      modifies this
      ensures Valid() && Abs() == IssueCommand(old(Abs()), kind, params, wait, open, sending)
    {
      RelayRuns.IssueInv(Abs(), kind, params, wait, open, sending);
      var id := nextId;
      nextId := nextId + 1;
      issues := issues + [Issue(Command(id, kind, params), wait, [])];
      SendCommandToExtension(id, wait, open, sending);
    }

    method OnTimeout(timer: TimerId)
      requires Valid() && timer in timers
      modifies this
      ensures Valid() && Abs() == FireTimer(old(Abs()), timer)
    {
      RelayRuns.TimeoutInv(Abs(), timer);
      var alarm := timers[timer];
      timers := timers - {timer};
      RespondPending(alarm.id, TimedOut, ErrorResponse(alarm.id, TimeoutInfo(alarm.wait)));
    }

    /** One round of the loop below. */
    method SseEnqueue(c: ClientId, push: Push, broken: set<ClientId>)
      requires Rep() && c in feeds
      modifies this
      ensures Rep() && Abs() == PushOne(old(Abs()), c, push, broken)
    {
      if c in broken {
        WithoutNoDup(sseClients, c);
        sseClients := Without(sseClients, c);
      } else {
        feeds := feeds[c := feeds[c].(frames := feeds[c].frames + [Data(push)])];
      }
    }

    /** The loop runs over a copy, so dropping a client whose `enqueue` throws skips nobody. */
    method SseBroadcast(push: Push, broken: set<ClientId>)
      requires Rep()
      modifies this
      ensures Rep() && Abs() == Broadcast(old(Abs()), push, broken)
    {
      ghost var before := Abs();
      PushedToAll(before, push, broken);
      var copy := sseClients;
      broadcasts := broadcasts + [push];
      for n := 0 to |copy|
        invariant Rep() && feeds.Keys == before.feeds.Keys
        invariant Abs() == PushTo(before, Elements(copy[..n]), push, broken)
      {
        assert copy[..n + 1] == copy[..n] + [copy[n]];
        assert Elements(copy[..n + 1]) == Elements(copy[..n]) + {copy[n]};
        PushOneMore(before, Elements(copy[..n]), copy[n], push, broken);
        SseEnqueue(copy[n], push, broken);
      }
      assert copy[..|copy|] == copy;
    }

    /** At most one interval is live, and the relay knows it. */
    ghost predicate OneInterval()
      reads this
    {
      && (extensionKeepaliveId.Some? ==> extensionKeepaliveId.value < nextInterval)
      && intervals.Keys == if extensionKeepaliveId.Some? then {extensionKeepaliveId.value} else {}
    }

    /** Afterwards no interval is live. */
    method StopExtensionKeepalive()
      requires Rep() && OneInterval()
      modifies this
      ensures Rep() && intervals == map[] && extensionKeepaliveId == None
      ensures Abs() == StopKeepalive(old(Abs()))
    {
      if extensionKeepaliveId == None {
        return;
      }
      intervals := intervals - {extensionKeepaliveId.value};
      extensionKeepaliveId := None;
    }

    /** Afterwards one interval is live: a new one, which pings the given socket. */
    method StartExtensionKeepalive(ws: SocketId)
      requires Rep() && OneInterval()
      modifies this
      ensures Rep() && OneInterval() && extensionKeepaliveId.Some?
      ensures intervals == map[extensionKeepaliveId.value := ws] && extensionKeepaliveId.value !in old(intervals)
      ensures Abs() == StartKeepalive(old(Abs()), ws)
    {
      StopExtensionKeepalive();
      intervals, extensionKeepaliveId := intervals[nextInterval := ws], Some(nextInterval);
      nextInterval := nextInterval + 1;
    }

    method OnClose(ws: SocketId, why: CloseEvent, broken: set<ClientId>)
      requires Valid()
      modifies this
      ensures Valid() && Abs() == CloseSocket(old(Abs()), ws, why, broken)
    {
      RelayRuns.CloseInv(Abs(), ws, why, broken);
      // Stale sockets close too.
      if extension != Some(ws) {
        return;
      }
      extension := None;
      StopExtensionKeepalive();
      FailAllPending(Disconnected, Disconnection(why));
      SseBroadcast(Status(false), broken);
    }

    method OnOpen(ws: SocketId, open: set<SocketId>, eviction: Eviction, broken: set<ClientId>)
      requires Valid()
      modifies this
      ensures Valid() && Abs() == OpenSocket(old(Abs()), ws, open, eviction, broken)
    {
      RelayRuns.OpenInv(Abs(), ws, open, eviction, broken);
      ghost var before := Abs();
      if extension.Some? && extension.value in open {
        RelayRuns.FailAllInv(Abs(), Replaced, RECONNECTED);
        FailAllPending(Replaced, RECONNECTED);
        if eviction.Nested? {
          OnClose(extension.value, EVICTED, eviction.broken);
        }
      }
      assert Abs() == Evict(before, open, eviction);
      extension := Some(ws);
      StartExtensionKeepalive(ws);
      SseBroadcast(Status(true), broken);
    }

    /** `message`: the parsed text, or None when parsing failed with the given cause. */
    method OnMessage(ws: SocketId, text: string, message: Option<Json>, cause: string, broken: set<ClientId>)
      requires Valid()
      modifies this
      ensures Valid()
      ensures Abs() == if message.None? then ReceiveGarbage(old(Abs()), text, cause, broken)
                       else ReceiveJson(old(Abs()), ws, message.value, broken)
    {
      if message == None {
        RelayRuns.GarbageInv(Abs(), text, cause, broken);
        SseBroadcast(BadMessage(text, BadMessageInfo(text, cause)), broken);
        return;
      }
      RelayRuns.ReceiveInv(Abs(), ws, message.value, broken);
      match Classify(message.value)
      case Reply(response) =>
        var hadPending := response.id >= 0 && SlotOf(pending, response.id) != None;
        assert hadPending <==> response.id >= 0 && response.id in Entries(pending);
        if hadPending {
          RespondPending(response.id, Replied(ws), response);
        } else {
          SseBroadcast(Orphan(message.value), broken);
        }
      case EventOrLog => SseBroadcast(Forwarded(message.value), broken);
      case Unknown => SseBroadcast(UnknownMessage(message.value), broken);
    }

    method OnSubscribe(c: ClientId, open: set<SocketId>, greeted: bool, aborted: bool)
      requires Valid() && c !in feeds
      modifies this
      ensures Valid() && Abs() == Subscribe(old(Abs()), c, open, greeted, aborted)
    {
      ghost var before := Abs();
      RelayRuns.SubscribeInv(before, c, open, greeted, aborted);
      assert c !in sseClients;
      sseClients := sseClients + [c];
      assert Elements(sseClients) == before.sseClients + {c};
      var connected := extension.Some? && extension.value in open;
      feeds := feeds[c := Feed(|broadcasts|, greeted, if greeted then [Data(Hello(connected))] else [])];
      if aborted {
        WithoutNoDup(sseClients, c);
        sseClients := Without(sseClients, c);
        assert Elements(sseClients) == before.sseClients - {c};
      }
      assert Abs() == Subscribe(before, c, open, greeted, aborted);
    }

    method OnKeepaliveTick(c: ClientId, enqueued: bool)
      requires Valid() && c in feeds
      modifies this
      ensures Valid() && Abs() == KeepaliveTick(old(Abs()), c, enqueued)
    {
      RelayRuns.TickInv(Abs(), c, enqueued);
      if enqueued {
        feeds := feeds[c := feeds[c].(frames := feeds[c].frames + [Comment])];
      }
    }

    method OnUnsubscribe(c: ClientId)
      requires Valid()
      modifies this
      ensures Valid() && Abs() == Unsubscribe(old(Abs()), c)
    {
      RelayRuns.UnsubscribeInv(Abs(), c);
      WithoutNoDup(sseClients, c);
      sseClients := Without(sseClients, c);
    }
  }
}
