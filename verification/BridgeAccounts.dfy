/** Nothing vanishes on the bridge, and nothing is made up: where every command, reply and event is, in
    every state of every run. */
module BridgeAccounts {
  import opened Prelude
  import opened Json
  import opened Messages
  import opened RelayState
  import RelayRuns
  import RelayAnswers
  import opened ExtensionState
  import opened Bridge

  // ---- commands ----

  /** The request was settled on the spot: its command never went out. */
  predicate Unsent(issue: Issue) {
    exists r :: r in issue.resolutions && (r.origin.NotConnected? || r.origin.SendFailed?)
  }

  /** The commands that went out, by the history of requests. */
  function SentOut(issues: seq<Issue>): seq<Command> {
    if issues == [] then []
    else
      var last := issues[|issues| - 1];
      SentOut(issues[..|issues| - 1]) + (if Unsent(last) then [] else [last.command])
  }

  /** Every command that went out is on its socket, was lost there, or reached the extension, which refused or
      accepted it. */
  ghost predicate CommandsAccounted(w: World) {
    && w.out == SentOut(w.relay.issues)
    && multiset(w.out) == Places(w.down, w.lostDown, w.ext.refused, w.ext.accepted)
  }

  function Places(down: seq<Packet<Command>>, lostDown: seq<Command>, refused: seq<Command>, accepted: seq<Command>)
    : multiset<Command>
  {
    multiset(Items(down)) + multiset(lostDown) + multiset(refused) + multiset(accepted)
  }

  lemma PlacesSent(down: seq<Packet<Command>>, lostDown: seq<Command>, refused: seq<Command>, accepted: seq<Command>,
                   ws: SocketId, c: Command)
    ensures Places(down + [Packet(ws, c)], lostDown, refused, accepted) == Places(down, lostDown, refused, accepted) + multiset{c}
  {
    AddItem(down, Packet(ws, c));
  }

  lemma PlacesTaken(down: seq<Packet<Command>>, lostDown: seq<Command>, refused: seq<Command>, accepted: seq<Command>, i: nat)
    requires i < |down|
    ensures var rest, c := RemoveAt(down, i), down[i].item;
            && Places(rest, lostDown + [c], refused, accepted) == Places(down, lostDown, refused, accepted)
            && Places(rest, lostDown, refused + [c], accepted) == Places(down, lostDown, refused, accepted)
            && Places(rest, lostDown, refused, accepted + [c]) == Places(down, lostDown, refused, accepted)
  {
    RemoveItem(down, i);
  }

  /** The extension starts what it accepted in the order in which it came. */
  ghost predicate InOrder(w: World) { w.ext.accepted == w.ext.started + w.ext.messagesQ }

  /** Every command started is running, came to an outcome, or died. */
  ghost predicate StartsAccounted(w: World) {
    multiset(w.ext.started) == multiset(w.ext.running) + multiset(Commands(w.ext.completed)) + multiset(w.ext.died)
  }

  // ---- messages of the extension ----

  function ReplyJson(e: Execution): Json { ResponseJson(ReplyFor(e.command.id, e.outcome)) }

  /** Every reply made and every event sent is about to be sent, is on its socket, was lost, or arrived. */
  ghost predicate MessagesAccounted(w: World) { Made(w.ext.completed, w.sent) == Held(w.ext.replies, w.up, w.lostUp, w.arrived) }

  /** The replies made and the events sent. */
  function Made(completed: seq<Execution>, sent: seq<Json>): multiset<Json> {
    multiset(Map(ReplyJson, completed)) + multiset(sent)
  }

  /** The messages about to be sent, on their socket, lost, and arrived. */
  function Held(replies: seq<Response>, up: seq<Packet<Json>>, lostUp: seq<Json>, arrived: seq<Json>): multiset<Json> {
    multiset(Map(ResponseJson, replies)) + multiset(Items(up)) + multiset(lostUp) + multiset(arrived)
  }

  lemma MadeReply(completed: seq<Execution>, sent: seq<Json>, e: Execution)
    ensures Made(completed + [e], sent) == Made(completed, sent) + multiset{ReplyJson(e)}
  {
    MapSnoc(ReplyJson, completed, e);
  }

  lemma MadeEvent(completed: seq<Execution>, sent: seq<Json>, m: Json)
    ensures Made(completed, sent + [m]) == Made(completed, sent) + multiset{m}
  {
  }

  function HeldBy(w: World): multiset<Json> { Held(w.ext.replies, w.up, w.lostUp, w.arrived) }

  lemma HeldReply(replies: seq<Response>, up: seq<Packet<Json>>, lostUp: seq<Json>, arrived: seq<Json>, r: Response)
    ensures Held(replies + [r], up, lostUp, arrived) == Held(replies, up, lostUp, arrived) + multiset{ResponseJson(r)}
  {
    MapSnoc(ResponseJson, replies, r);
  }

  lemma HeldReplyTaken(replies: seq<Response>, up: seq<Packet<Json>>, lostUp: seq<Json>, arrived: seq<Json>, i: nat)
    requires i < |replies|
    ensures Held(replies, up, lostUp, arrived) == Held(RemoveAt(replies, i), up, lostUp, arrived) + multiset{ResponseJson(replies[i])}
  {
    MapRemove(ResponseJson, replies, i);
  }

  lemma HeldUpTaken(replies: seq<Response>, up: seq<Packet<Json>>, lostUp: seq<Json>, arrived: seq<Json>, i: nat)
    requires i < |up|
    ensures Held(replies, up, lostUp, arrived) == Held(replies, RemoveAt(up, i), lostUp, arrived) + multiset{up[i].item}
  {
    RemoveItem(up, i);
  }

  lemma HeldGone(replies: seq<Response>, up: seq<Packet<Json>>, lostUp: seq<Json>, arrived: seq<Json>, m: Json)
    ensures Held(replies, up, lostUp + [m], arrived) == Held(replies, up, lostUp, arrived) + multiset{m}
    ensures Held(replies, up, lostUp, arrived + [m]) == Held(replies, up, lostUp, arrived) + multiset{m}
  {
  }

  /** A message sent is on its socket or lost. */
  lemma HeldSent(w: World, m: Json, socket: Option<SocketId>)
    ensures HeldBy(SendUp(w, m, socket)) == HeldBy(w) + multiset{m}
    ensures SendUp(w, m, socket).up == w.up + (if socket.Some? then [Packet(socket.value, m)] else [])
  {
    if socket.Some? {
      AddItem(w.up, Packet(socket.value, m));
    } else {
      HeldGone(w.ext.replies, w.up, w.lostUp, w.arrived, m);
    }
  }

  function NewsIn(message: Json): seq<Json> { if Classify(message).EventOrLog? then [message] else [] }

  /** What was forwarded to the clients is the news among what arrived, in the order of arrival. */
  ghost predicate ForwardsAccounted(w: World) {
    RelayRuns.Forwards(w.relay.broadcasts) == FlatMap(NewsIn, w.arrived)
  }

  ghost predicate Accounted(w: World) {
    && CommandsAccounted(w) && InOrder(w) && StartsAccounted(w) && MessagesAccounted(w) && ForwardsAccounted(w)
    && forall m :: m in w.sent ==> SentEvent(m)
  }

  // ---- a relay step leaves the commands that went out as they are ----

  lemma {:induction false} SentOutSame(a: seq<Issue>, b: seq<Issue>)
    requires |a| == |b|
    requires forall i :: 0 <= i < |a| ==> a[i].command == b[i].command && (Unsent(a[i]) <==> Unsent(b[i]))
    ensures SentOut(a) == SentOut(b)
    decreases |a|
  {
    if a != [] {
      var n := |a| - 1;
      assert forall i :: 0 <= i < n ==> a[..n][i] == a[i] && b[..n][i] == b[i];
      SentOutSame(a[..n], b[..n]);
    }
  }

  lemma OneUnsent(issue: Issue, r: Resolution)
    requires issue.resolutions == [r]
    ensures Unsent(issue) <==> r.origin.NotConnected? || r.origin.SendFailed?
  {
    assert r in issue.resolutions;
  }

  /** Such a step draws no id and settles no request on the spot. */
  lemma StepSentOut(s: State, input: Input)
    requires RelayRuns.Inv(s) && Enabled(s, input) && !input.Request?
    ensures SentOut(Step(s, input).issues) == SentOut(s.issues)
  {
    var s' := Step(s, input);
    RelayRuns.StepExtends(s, input);
    RelayRuns.StepInv(s, input);
    RelayAnswers.StepDraws(s, input);
    forall i | 0 <= i < |s.issues|
      ensures s.issues[i].command == s'.issues[i].command && (Unsent(s.issues[i]) <==> Unsent(s'.issues[i]))
    {
      if i + 1 in s.pending {
        SettledIsSent(s, input, i + 1);
      }
    }
    SentOutSame(s'.issues, s.issues);
  }

  lemma SettledIsSent(s: State, input: Input, id: nat)
    requires RelayRuns.Inv(s) && Enabled(s, input) && !input.Request? && id in s.pending
    requires RelayRuns.Inv(Step(s, input)) && |Step(s, input).issues| == |s.issues|
    ensures !Unsent(s.issues[id - 1]) && !Unsent(Step(s, input).issues[id - 1])
  {
    var s', cause := Step(s, input), RelayRuns.CauseOf(s, input, id);
    RelayRuns.FirstCauseSettles(s, input, id);
    assert s.issues[id - 1].resolutions == [];
    if cause.Some? {
      OneUnsent(s'.issues[id - 1], cause.value);
    } else {
      assert s'.issues[id - 1].resolutions == [];
    }
  }

  lemma RequestSentOut(s: State, kind: string, params: Json, wait: Wait, open: set<SocketId>, sending: Sending)
    requires RelayRuns.Inv(s)
    ensures var s' := IssueCommand(s, kind, params, wait, open, sending);
            SentOut(s'.issues) == SentOut(s.issues) +
              (if s.extension.Some? && s.extension.value in open && sending.Sent?
               then [Command(s.nextId, kind, params)] else [])
  {
    var s', id := IssueCommand(s, kind, params, wait, open, sending), s.nextId;
    RelayRuns.NewRequest(s, kind, params, wait, open, sending);
    if s'.issues[id - 1].resolutions != [] {
      OneUnsent(s'.issues[id - 1], s'.issues[id - 1].resolutions[0]);
    }
    assert forall i :: 0 <= i < id - 1 ==> s'.issues[i] == s.issues[i];
    assert s'.issues[..id - 1] == s.issues;
  }

  // ---- steps that do not touch an account ----

  lemma SameCommands(w: World, w': World)
    requires CommandsAccounted(w)
    requires w'.out == w.out && w'.relay.issues == w.relay.issues && w'.down == w.down && w'.lostDown == w.lostDown
    requires w'.ext.refused == w.ext.refused && w'.ext.accepted == w.ext.accepted
    ensures CommandsAccounted(w')
  {
  }

  lemma SameStarts(w: World, w': World)
    requires StartsAccounted(w)
    requires w'.ext.started == w.ext.started && w'.ext.running == w.ext.running
    requires w'.ext.completed == w.ext.completed && w'.ext.died == w.ext.died
    ensures StartsAccounted(w')
  {
  }

  lemma SameMessages(w: World, w': World)
    requires MessagesAccounted(w)
    requires w'.ext.completed == w.ext.completed && w'.sent == w.sent && w'.ext.replies == w.ext.replies
    requires w'.up == w.up && w'.lostUp == w.lostUp && w'.arrived == w.arrived
    ensures MessagesAccounted(w')
  {
  }

  // ---- every step keeps the accounts ----

  lemma RelayStepAccounted(w: World, input: Input)
    requires Bridge.Inv(w) && Accounted(w) && Enabled(w.relay, input) && !input.Request? && !input.Received?
    ensures Accounted(w.(relay := Step(w.relay, input)))
  {
    var w' := w.(relay := Step(w.relay, input));
    RelayCommands(w, input);
    SameStarts(w, w');
    SameMessages(w, w');
    RelayRuns.StepForwards(w.relay, input);
  }

  lemma RelayCommands(w: World, input: Input)
    requires RelayRuns.Inv(w.relay) && CommandsAccounted(w) && Enabled(w.relay, input) && !input.Request?
    ensures CommandsAccounted(w.(relay := Step(w.relay, input)))
  {
    StepSentOut(w.relay, input);
  }

  /** The command goes out on the extension's socket if that is open and the send does not fail. */
  lemma RequestGoesOut(w: World, act: Action)
    requires RelayRuns.Inv(w.relay) && CommandsAccounted(w) && act.Requests?
    ensures CommandsAccounted(Next(w, act))
    ensures var sent := w.relay.extension.Some? && w.relay.extension.value in act.open && act.sending.Sent?;
            Next(w, act).down ==
              w.down + (if sent then [Packet(w.relay.extension.value, Command(w.relay.nextId, act.kind, act.params))] else [])
  {
    RequestSentOut(w.relay, act.kind, act.params, act.wait, act.open, act.sending);
    var c := Command(w.relay.nextId, act.kind, act.params);
    if w.relay.extension.Some? && w.relay.extension.value in act.open && act.sending.Sent? {
      PlacesSent(w.down, w.lostDown, w.ext.refused, w.ext.accepted, w.relay.extension.value, c);
      assert multiset(w.out + [c]) == multiset(w.out) + multiset{c};
    }
  }

  lemma RequestAccounted(w: World, act: Action)
    requires RelayRuns.Inv(w.relay) && Accounted(w) && act.Requests?
    ensures Accounted(Next(w, act))
  {
    var w' := Next(w, act);
    RequestGoesOut(w, act);
    RequestForwards(w, act);
    RequestTouches(w, act);
    SameStarts(w, w');
    SameMessages(w, w');
  }

  lemma RequestTouches(w: World, act: Action)
    requires act.Requests?
    ensures var w' := Next(w, act);
            w'.ext == w.ext && w'.up == w.up && w'.sent == w.sent && w'.lostUp == w.lostUp && w'.arrived == w.arrived
  {
  }

  lemma RequestForwards(w: World, act: Action)
    requires ForwardsAccounted(w) && act.Requests?
    ensures ForwardsAccounted(Next(w, act))
  {
    RelayRuns.StepForwards(w.relay, Request(act.kind, act.params, act.wait, act.open, act.sending));
    assert Next(w, act).arrived == w.arrived;
  }

  lemma DownMoves(w: World, act: Action)
    requires CommandsAccounted(w) && Possible(w, act) && (act.DownArrives? || act.DownLost?)
    ensures CommandsAccounted(Next(w, act))
  {
    PlacesTaken(w.down, w.lostDown, w.ext.refused, w.ext.accepted, act.i);
  }

  lemma DownAccounted(w: World, act: Action)
    requires Accounted(w) && Possible(w, act) && (act.DownArrives? || act.DownLost?)
    ensures Accounted(Next(w, act))
  {
    DownMoves(w, act);
    SameStarts(w, Next(w, act));
    SameMessages(w, Next(w, act));
    Reassociate(w.ext.started, w.ext.messagesQ, [w.down[act.i].item]);
  }

  lemma ForkStarts(w: World)
    requires StartsAccounted(w) && w.ext.messagesQ != []
    ensures StartsAccounted(Next(w, Forks))
  {
  }

  lemma ForkAccounted(w: World)
    requires Accounted(w) && w.ext.messagesQ != []
    ensures Accounted(Next(w, Forks))
  {
    ForkStarts(w);
    ForkInOrder(w);
    SameCommands(w, Next(w, Forks));
    SameMessages(w, Next(w, Forks));
  }

  lemma ForkInOrder(w: World)
    requires InOrder(w) && w.ext.messagesQ != []
    ensures InOrder(Next(w, Forks))
  {
    assert w.ext.messagesQ == [w.ext.messagesQ[0]] + w.ext.messagesQ[1..];
    Reassociate(w.ext.started, [w.ext.messagesQ[0]], w.ext.messagesQ[1..]);
  }

  lemma CompleteStarts(w: World, i: nat, outcome: Outcome)
    requires StartsAccounted(w) && Possible(w, Completes(i, outcome))
    ensures StartsAccounted(Next(w, Completes(i, outcome)))
  {
    RemoveAtMultiset(w.ext.running, i);
    assert Commands(Next(w, Completes(i, outcome)).ext.completed) == Commands(w.ext.completed) + [w.ext.running[i]];
  }

  /** The reply of an outcome is made with it. */
  lemma CompleteReplies(w: World, i: nat, outcome: Outcome)
    requires MessagesAccounted(w) && Possible(w, Completes(i, outcome))
    ensures MessagesAccounted(Next(w, Completes(i, outcome)))
  {
    var e, r := Execution(w.ext.running[i], outcome), ReplyFor(w.ext.running[i].id, outcome);
    MadeReply(w.ext.completed, w.sent, e);
    HeldReply(w.ext.replies, w.up, w.lostUp, w.arrived, r);
  }

  lemma CompleteAccounted(w: World, i: nat, outcome: Outcome)
    requires Accounted(w) && Possible(w, Completes(i, outcome))
    ensures Accounted(Next(w, Completes(i, outcome)))
  {
    CompleteStarts(w, i, outcome);
    CompleteReplies(w, i, outcome);
    SameCommands(w, Next(w, Completes(i, outcome)));
  }

  lemma DieAccounted(w: World, i: nat)
    requires Accounted(w) && i < |w.ext.running|
    ensures Accounted(Next(w, Dies(i)))
  {
    DieStarts(w, i);
    SameCommands(w, Next(w, Dies(i)));
    SameMessages(w, Next(w, Dies(i)));
  }

  lemma DieStarts(w: World, i: nat)
    requires StartsAccounted(w) && i < |w.ext.running|
    ensures StartsAccounted(Next(w, Dies(i)))
  {
    RemoveAtMultiset(w.ext.running, i);
  }

  lemma HandedGoesOut(w: World, handed: World, m: Json, socket: Option<SocketId>)
    requires MessagesAccounted(w) && HeldBy(w) == HeldBy(handed) + multiset{m}
    requires handed.ext.completed == w.ext.completed && handed.sent == w.sent
    ensures MessagesAccounted(SendUp(handed, m, socket))
    ensures SendUp(handed, m, socket).up == handed.up + (if socket.Some? then [Packet(socket.value, m)] else [])
  {
    HeldSent(handed, m, socket);
  }

  lemma MadeGoesOut(w: World, m: Json, socket: Option<SocketId>)
    requires MessagesAccounted(w)
    ensures MessagesAccounted(SendUp(w.(sent := w.sent + [m]), m, socket))
    ensures SendUp(w.(sent := w.sent + [m]), m, socket).up == w.up + (if socket.Some? then [Packet(socket.value, m)] else [])
  {
    MadeEvent(w.ext.completed, w.sent, m);
    HeldSent(w.(sent := w.sent + [m]), m, socket);
  }

  /** A reply leaves its handler. */
  lemma ReplyStep(w: World, i: nat, sent: bool)
    requires i < |w.ext.replies|
    ensures Next(w, Replies(i, sent)) ==
            SendUp(w.(ext := Hand(w.ext, i)), ResponseJson(w.ext.replies[i]), if sent then w.ext.wsRef else None)
  {
  }

  /** A reply goes out on the socket that is current then, or is lost. */
  lemma ReplyGoesOut(w: World, i: nat, sent: bool)
    requires MessagesAccounted(w) && i < |w.ext.replies|
    ensures MessagesAccounted(Next(w, Replies(i, sent)))
    ensures var out := w.ext.wsRef.Some? && sent;
            Next(w, Replies(i, sent)).up ==
              w.up + (if out then [Packet(w.ext.wsRef.value, ResponseJson(w.ext.replies[i]))] else [])
  {
    ReplyStep(w, i, sent);
    HeldReplyTaken(w.ext.replies, w.up, w.lostUp, w.arrived, i);
    HandedGoesOut(w, w.(ext := Hand(w.ext, i)), ResponseJson(w.ext.replies[i]), if sent then w.ext.wsRef else None);
  }

  lemma ReplyAccounted(w: World, i: nat, sent: bool)
    requires Accounted(w) && i < |w.ext.replies|
    ensures Accounted(Next(w, Replies(i, sent)))
  {
    ReplyGoesOut(w, i, sent);
    SameCommands(w, Next(w, Replies(i, sent)));
    SameStarts(w, Next(w, Replies(i, sent)));
  }

  /** So does an event. */
  lemma EventGoesOut(w: World, act: Action)
    requires MessagesAccounted(w) && act.SendsEvent? && Possible(w, act)
    ensures MessagesAccounted(Next(w, act))
    ensures var out := w.ext.wsRef.Some? && act.sent;
            Next(w, act).up == w.up +
              (if out then [Packet(w.ext.wsRef.value, EventJson(act.targetId, act.name, act.eventParams))] else [])
  {
    var event := EventJson(act.targetId, act.name, act.eventParams);
    MadeGoesOut(w, event, SocketFor(w.ext, act.sent));
  }

  lemma EventAccounted(w: World, act: Action)
    requires Accounted(w) && act.SendsEvent? && Possible(w, act)
    ensures Accounted(Next(w, act))
  {
    EventGoesOut(w, act);
    SameCommands(w, Next(w, act));
    SameStarts(w, Next(w, act));
    assert SentEvent(EventJson(act.targetId, act.name, act.eventParams));
  }

  lemma UpMoves(w: World, act: Action)
    requires MessagesAccounted(w) && Possible(w, act) && (act.UpArrives? || act.UpLost?)
    ensures MessagesAccounted(Next(w, act))
  {
    var m := w.up[act.i].item;
    HeldUpTaken(w.ext.replies, w.up, w.lostUp, w.arrived, act.i);
    HeldGone(w.ext.replies, RemoveAt(w.up, act.i), w.lostUp, w.arrived, m);
  }

  lemma ArrivalForwards(w: World, act: Action)
    requires ForwardsAccounted(w) && Possible(w, act) && act.UpArrives?
    ensures ForwardsAccounted(Next(w, act))
  {
    var p := w.up[act.i];
    RelayRuns.StepForwards(w.relay, Received(p.socket, p.item, act.broken));
    assert (w.arrived + [p.item])[..|w.arrived|] == w.arrived;
  }

  lemma ArrivalAccounted(w: World, act: Action)
    requires Bridge.Inv(w) && Accounted(w) && Possible(w, act) && act.UpArrives?
    ensures Accounted(Next(w, act))
  {
    var w', input := Next(w, act), Received(w.up[act.i].socket, w.up[act.i].item, act.broken);
    UpMoves(w, act);
    ArrivalForwards(w, act);
    RelayCommands(w, input);
    SameCommands(w.(relay := Step(w.relay, input)), w');
    SameStarts(w, w');
  }

  lemma UpLostAccounted(w: World, act: Action)
    requires Accounted(w) && Possible(w, act) && act.UpLost?
    ensures Accounted(Next(w, act))
  {
    UpMoves(w, act);
    SameCommands(w, Next(w, act));
    SameStarts(w, Next(w, act));
  }

  lemma SwitchAccounted(w: World, act: Action)
    requires Accounted(w) && act.SwitchesSocket?
    ensures Accounted(Next(w, act))
  {
    SameCommands(w, Next(w, act));
    SameStarts(w, Next(w, act));
    SameMessages(w, Next(w, act));
  }

  lemma NextAccounted(w: World, act: Action)
    requires Bridge.Inv(w) && Accounted(w) && Possible(w, act)
    ensures Accounted(Next(w, act))
  {
    match act
    case Relays(input) => RelayStepAccounted(w, input);
    case Requests(_, _, _, _, _) => RequestAccounted(w, act);
    case DownArrives(_) => DownAccounted(w, act);
    case DownLost(_) => DownAccounted(w, act);
    case Forks => ForkAccounted(w);
    case Completes(i, outcome) => CompleteAccounted(w, i, outcome);
    case Dies(i) => DieAccounted(w, i);
    case Replies(i, sent) => ReplyAccounted(w, i, sent);
    case SendsEvent(_, _, _, _) => EventAccounted(w, act);
    case UpArrives(_, _) => ArrivalAccounted(w, act);
    case UpLost(_) => UpLostAccounted(w, act);
    case SwitchesSocket(_) => SwitchAccounted(w, act);
  }

  /** Over every run, under every interleaving, loss and reconnection: every command that went out is on its
      way, lost on the socket, refused, waiting, running, died, or came to an outcome; commands start in the
      order of their arrival; every outcome's reply and every event is about to be sent, on its way,
      lost, or arrived; and the clients are forwarded exactly the news that arrived, in that order. */
  lemma {:induction false} NothingVanishes(worlds: seq<World>, acts: seq<Action>, n: nat)
    requires IsRun(worlds, acts) && n < |worlds|
    ensures Accounted(worlds[n])
  {
    if n > 0 {
      NothingVanishes(worlds, acts, n - 1);
      Bridge.RunInv(worlds, acts, n - 1);
      NextAccounted(worlds[n - 1], acts[n - 1]);
    } else {
      StartAccounted();
    }
  }

  lemma StartAccounted()
    ensures Accounted(START)
  {
  }

  // ---- events ----

  lemma {:induction false} ReplyJsonsAreReplies(completed: seq<Execution>)
    requires forall e :: e in completed ==> ValidOutcome(e.outcome)
    ensures forall m :: m in Map(ReplyJson, completed) ==> IsResponse(m)
    decreases |completed|
  {
    if completed != [] {
      var e := completed[|completed| - 1];
      ReplyJsonsAreReplies(completed[..|completed| - 1]);
      ResponseRoundTrip(ReplyFor(e.command.id, e.outcome));
    }
  }

  /** What is forwarded is no reply, and arrived at least as often. */
  lemma NewsArrived(arrived: seq<Json>)
    ensures multiset(FlatMap(NewsIn, arrived)) <= multiset(arrived)
    ensures forall m :: m in FlatMap(NewsIn, arrived) ==> !IsResponse(m)
  {
    FlatMapKeeps(NewsIn, arrived);
    forall m | m in FlatMap(NewsIn, arrived)
      ensures !IsResponse(m)
    {
      assert NewsIn(m) == [m];
    }
  }

  /** In every run, whatever the relay forwards is an event the extension sent before, and it forwards no
      event more often than the extension sent it, under loss, delay and reconnection. */
  lemma ForwardedEventsAreSent(worlds: seq<World>, acts: seq<Action>, n: nat)
    requires IsRun(worlds, acts) && n < |worlds|
    ensures multiset(RelayRuns.Forwards(worlds[n].relay.broadcasts)) <= multiset(worlds[n].sent)
    ensures forall m :: m in worlds[n].sent ==> SentEvent(m)
  {
    var w := worlds[n];
    NothingVanishes(worlds, acts, n);
    Bridge.RunInv(worlds, acts, n);
    ReplyJsonsAreReplies(w.ext.completed);
    NewsArrived(w.arrived);
    ArrivedEventsWereSent(w);
  }

  lemma ArrivedEventsWereSent(w: World)
    requires MessagesAccounted(w) && ForwardsAccounted(w)
    requires forall m :: m in Map(ReplyJson, w.ext.completed) ==> IsResponse(m)
    requires multiset(FlatMap(NewsIn, w.arrived)) <= multiset(w.arrived)
    requires forall m :: m in FlatMap(NewsIn, w.arrived) ==> !IsResponse(m)
    ensures multiset(RelayRuns.Forwards(w.relay.broadcasts)) <= multiset(w.sent)
  {
    var news := multiset(FlatMap(NewsIn, w.arrived));
    forall m
      ensures news[m] <= multiset(w.sent)[m]
    {
      if m in news {
        assert m in FlatMap(NewsIn, w.arrived);
        var replies, sent := multiset(Map(ReplyJson, w.ext.completed)), multiset(w.sent);
        assert replies[m] == 0;
        assert (replies + sent)[m] >= multiset(w.arrived)[m] >= news[m];
      }
    }
  }
}
