/** The whole command bridge: HTTP requests, the relay, the sockets in both directions, and the
    extension's command loop, with every interleaving of their steps. */
module Bridge {
  import opened Prelude
  import opened Json
  import opened Messages
  import opened RelayState
  import RelayRuns
  import opened ExtensionState

  /** A message in flight on a socket. */
  datatype Packet<T> = Packet(socket: SocketId, item: T)

  datatype World = World(
    relay: State,
    down: seq<Packet<Command>>,
    up: seq<Packet<Json>>,
    ext: Extension,
    // history: the commands put on a socket and those lost there, the events the extension sent, and what
    // became of its messages
    out: seq<Command>,
    lostDown: seq<Command>,
    sent: seq<Json>,
    lostUp: seq<Json>,
    arrived: seq<Json>)

  /** One relay process, and an extension that holds no older commands. */
  const START := World(INIT, [], [], IDLE, [], [], [], [], [])

  datatype Action =
    | Relays(input: Input)                             // a relay step that exchanges nothing with the extension
    | Requests(kind: string, params: Json, wait: Wait, open: set<SocketId>, sending: Sending)
    | DownArrives(i: nat)
    | DownLost(i: nat)
    | Forks
    | Completes(i: nat, outcome: Outcome)
    | Dies(i: nat)                                     // a defect escapes the handler: no reply
    | Replies(i: nat, sent: bool)
    | SendsEvent(targetId: string, name: string, eventParams: Option<Json>, sent: bool)
    | SwitchesSocket(ws: Option<SocketId>)
    | UpArrives(i: nat, broken: set<ClientId>)
    | UpLost(i: nat)

  /** The oldest message in flight on its socket: each socket delivers in order. */
  predicate FirstOnSocket<T>(packets: seq<Packet<T>>, i: nat) {
    i < |packets| && forall j :: 0 <= j < i ==> packets[j].socket != packets[i].socket
  }

  predicate Possible(w: World, act: Action) {
    match act
    case Relays(input) => Enabled(w.relay, input) && !input.Request? && !input.Received?
    case Requests(_, _, _, _, _) => true
    case DownArrives(i) => FirstOnSocket(w.down, i)
    case DownLost(i) => i < |w.down|
    case Forks => w.ext.messagesQ != []
    case Completes(i, outcome) => i < |w.ext.running| && ValidOutcome(outcome)
    case Dies(i) => i < |w.ext.running|
    case Replies(i, _) => i < |w.ext.replies|
    case SendsEvent(targetId, _, params, _) => targetId != "" && (params.Some? ==> IsRecord(params.value))
    case SwitchesSocket(_) => true
    case UpArrives(i, _) => FirstOnSocket(w.up, i)
    case UpLost(i) => i < |w.up|
  }

  /** A `forwardCDPEvent` message of the extension. */
  function EventJson(targetId: string, name: string, params: Option<Json>): Json {
    Object([Member("method", Some(JString("forwardCDPEvent"))),
            Member("params", Some(Object([Member("targetId", Some(JString(targetId))),
                                          Member("method", Some(JString(name))), Member("params", params)])))])
  }

  /** A message of the extension goes out on the socket `send` found, or nowhere. */
  function SendUp(w: World, message: Json, socket: Option<SocketId>): World {
    if socket.Some? then w.(up := w.up + [Packet(socket.value, message)]) else w.(lostUp := w.lostUp + [message])
  }

  function Next(w: World, act: Action): World
    requires Possible(w, act)
  {
    match act
    case Relays(input) => w.(relay := Step(w.relay, input))
    case Requests(kind, params, wait, open, sending) =>
      var command, route := Command(w.relay.nextId, kind, params), Route(w.relay, open);
      var issued := w.(relay := IssueCommand(w.relay, kind, params, wait, open, sending));
      if route.Some? && sending.Sent?
      then issued.(down := w.down + [Packet(route.value, command)], out := w.out + [command]) else issued
    case DownArrives(i) => w.(down := RemoveAt(w.down, i), ext := Intake(w.ext, w.down[i].item))
    case DownLost(i) => w.(down := RemoveAt(w.down, i), lostDown := w.lostDown + [w.down[i].item])
    case Forks => w.(ext := Fork(w.ext))
    case Completes(i, outcome) => w.(ext := Complete(w.ext, i, outcome))
    case Dies(i) => w.(ext := Die(w.ext, i))
    case Replies(i, sent) =>
      SendUp(w.(ext := Hand(w.ext, i)), ResponseJson(w.ext.replies[i]), SocketFor(w.ext, sent))
    case SendsEvent(targetId, name, params, sent) =>
      var event := EventJson(targetId, name, params);
      SendUp(w.(sent := w.sent + [event]), event, SocketFor(w.ext, sent))
    case SwitchesSocket(ws) => w.(ext := w.ext.(wsRef := ws))
    case UpArrives(i, broken) =>
      w.(up := RemoveAt(w.up, i), arrived := w.arrived + [w.up[i].item],
         relay := ReceiveJson(w.relay, w.up[i].socket, w.up[i].item, broken))
    case UpLost(i) => w.(up := RemoveAt(w.up, i), lostUp := w.lostUp + [w.up[i].item])
  }

  // ---- the invariant ----

  function Items<T>(packets: seq<Packet<T>>): seq<T> { seq(|packets|, i requires 0 <= i < |packets| => packets[i].item) }

  function Commands(executions: seq<Execution>): seq<Command> {
    seq(|executions|, i requires 0 <= i < |executions| => executions[i].command)
  }

  /** Every copy of a command between the relay and the extension's handlers, and every start. */
  function Pipeline(w: World): multiset<Command> {
    multiset(Items(w.down)) + multiset(w.ext.messagesQ) + multiset(w.ext.started)
  }

  predicate Issued(s: State, c: Command) { 1 <= c.id <= |s.issues| && s.issues[c.id - 1].command == c }

  /** Only commands the relay issued travel, and each of them in at most one place. */
  ghost predicate Travels(w: World) {
    && (forall c :: Pipeline(w)[c] <= 1)
    && (forall c :: c in Pipeline(w) ==> Issued(w.relay, c))
    && (forall c :: c in w.ext.messagesQ || c in w.ext.started ==> IsCommandMessage(CommandJson(c)))
  }

  /** A handler runs, or has run, once for each start. */
  ghost predicate Handled(w: World) {
    && multiset(w.ext.running) + multiset(Commands(w.ext.completed)) <= multiset(w.ext.started)
    && forall e :: e in w.ext.completed ==> ValidOutcome(e.outcome)
  }

  /** The reply of some execution. */
  ghost predicate Answers(executions: seq<Execution>, response: Response) {
    exists k :: 0 <= k < |executions| && response == ReplyFor(executions[k].command.id, executions[k].outcome)
  }

  /** Every reply on its way, and every reply that settled a request, is the reply of an execution. */
  ghost predicate Sourced(w: World) {
    && (forall r :: r in w.ext.replies ==> Answers(w.ext.completed, r))
    && (forall p :: p in w.up && IsResponse(p.item) ==> Answers(w.ext.completed, DecodeResponse(p.item)))
    && (forall i, r :: 0 <= i < |w.relay.issues| && r in w.relay.issues[i].resolutions && r.origin.Replied? ==>
          Answers(w.ext.completed, r.response))
  }

  ghost predicate Inv(w: World) {
    RelayRuns.Inv(w.relay) && Travels(w) && Handled(w) && Sourced(w)
  }

  // ---- what a relay step can do to the history of requests ----

  /** No request was settled by a reply in this step. */
  ghost predicate NoNewReply(s: State, s': State) {
    forall i, r :: 0 <= i < |s'.issues| && r in s'.issues[i].resolutions && r.origin.Replied? ==>
      i < |s.issues| && r in s.issues[i].resolutions
  }

  lemma BlocksAddNoReply(s: State)
    ensures forall id, origin: Origin, response :: !origin.Replied? ==> NoNewReply(s, Respond(s, id, origin, response))
    ensures forall origin: Origin, info :: !origin.Replied? ==> NoNewReply(s, FailAll(s, origin, info))
  {
  }

  lemma CloseAddsNoReply(s: State, ws: SocketId, why: CloseEvent, broken: set<ClientId>)
    ensures NoNewReply(s, CloseSocket(s, ws, why, broken))
  {
    BlocksAddNoReply(StopKeepalive(s.(extension := None)));
  }

  lemma OpenAddsNoReply(s: State, ws: SocketId, open: set<SocketId>, eviction: Eviction, broken: set<ClientId>)
    ensures NoNewReply(s, OpenSocket(s, ws, open, eviction, broken))
  {
    BlocksAddNoReply(s);
    if Route(s, open).Some? && eviction.Nested? {
      CloseAddsNoReply(FailAll(s, Replaced, RECONNECTED), s.extension.value, EVICTED, eviction.broken);
    }
  }

  lemma IssueAddsNoReply(s: State, kind: string, params: Json, wait: Wait, open: set<SocketId>, sending: Sending)
    ensures NoNewReply(s, IssueCommand(s, kind, params, wait, open, sending))
  {
    var id := s.nextId;
    var drawn := s.(nextId := id + 1, issues := s.issues + [Issue(Command(id, kind, params), wait, [])]);
    assert NoNewReply(s, drawn);
    if Route(s, open).None? {
      ResolveAddsNoReply(drawn, {id}, NotConnected, _ => ErrorResponse(id, NOT_CONNECTED));
    } else {
      BlocksAddNoReply(Arm(drawn, id, wait));
    }
  }

  lemma ResolveAddsNoReply(s: State, ids: set<nat>, origin: Origin, answer: nat -> Response)
    requires !origin.Replied?
    ensures NoNewReply(s, s.(issues := Resolve(s.issues, ids, origin, answer)))
  {
  }

  lemma StepAddsNoReply(s: State, input: Input)
    requires Enabled(s, input) && !input.Request? && !input.Received?
    ensures NoNewReply(s, Step(s, input))
  {
    match input
    case Timeout(timer) => BlocksAddNoReply(s.(timers := s.timers - {timer}));
    case Opened(ws, open, eviction, broken) => OpenAddsNoReply(s, ws, open, eviction, broken);
    case Closed(ws, why, broken) => CloseAddsNoReply(s, ws, why, broken);
    case ReceivedGarbage(_, _, _) =>
    case Subscribed(_, _, _, _) =>
    case Ticked(_, _) =>
    case Unsubscribed(_) =>
  }

  /** A message settles a request only if it is a reply, and then with that very reply. */
  lemma ReceiveAddsItsReply(s: State, ws: SocketId, message: Json, broken: set<ClientId>)
    ensures var s' := ReceiveJson(s, ws, message, broken);
            forall i, r :: 0 <= i < |s'.issues| && r in s'.issues[i].resolutions && r.origin.Replied? ==>
              (i < |s.issues| && r in s.issues[i].resolutions) ||
              (IsResponse(message) && r.response == DecodeResponse(message))
  {
  }

  // ---- every step keeps the invariant ----

  lemma RemoveItem<T>(packets: seq<Packet<T>>, i: nat)
    requires i < |packets|
    ensures multiset(Items(packets)) == multiset(Items(RemoveAt(packets, i))) + multiset{packets[i].item}
  {
    assert Items(RemoveAt(packets, i)) == RemoveAt(Items(packets), i);
    RemoveAtMultiset(Items(packets), i);
  }

  lemma AddItem<T>(packets: seq<Packet<T>>, p: Packet<T>)
    ensures multiset(Items(packets + [p])) == multiset(Items(packets)) + multiset{p.item}
  {
    assert Items(packets + [p]) == Items(packets) + [p.item];
  }

  lemma AnswersMore(executions: seq<Execution>, e: Execution, response: Response)
    requires Answers(executions, response)
    ensures Answers(executions + [e], response)
  {
    var k :| 0 <= k < |executions| && response == ReplyFor(executions[k].command.id, executions[k].outcome);
    assert (executions + [e])[k] == executions[k];
  }

  lemma RelayStepInv(w: World, s': State)
    requires Inv(w) && RelayRuns.Inv(s') && RelayRuns.Extends(w.relay, s') && NoNewReply(w.relay, s')
    ensures Inv(w.(relay := s'))
  {
    var w' := w.(relay := s');
    assert Pipeline(w') == Pipeline(w);
  }

  lemma DrawnCommand(s: State, kind: string, params: Json, wait: Wait, open: set<SocketId>, sending: Sending)
    requires RelayRuns.Inv(s)
    ensures Issued(IssueCommand(s, kind, params, wait, open, sending), Command(s.nextId, kind, params))
    ensures !Issued(s, Command(s.nextId, kind, params))
  {
  }

  /** A fresh command enters the pipeline once. */
  lemma SendInv(w: World, route: SocketId, command: Command)
    requires Inv(w) && Issued(w.relay, command) && command !in Pipeline(w)
    ensures Inv(w.(down := w.down + [Packet(route, command)]))
  {
    var w' := w.(down := w.down + [Packet(route, command)]);
    AddItem(w.down, Packet(route, command));
    assert Pipeline(w') == Pipeline(w) + multiset{command};
  }

  lemma RequestInv(w: World, kind: string, params: Json, wait: Wait, open: set<SocketId>, sending: Sending)
    requires Inv(w)
    ensures Inv(Next(w, Requests(kind, params, wait, open, sending)))
  {
    var s', input := IssueCommand(w.relay, kind, params, wait, open, sending), Request(kind, params, wait, open, sending);
    RelayRuns.IssueInv(w.relay, kind, params, wait, open, sending);
    RelayRuns.StepExtends(w.relay, input);
    IssueAddsNoReply(w.relay, kind, params, wait, open, sending);
    RelayStepInv(w, s');
    DrawnCommand(w.relay, kind, params, wait, open, sending);
    var command, route := Command(w.relay.nextId, kind, params), Route(w.relay, open);
    assert command !in Pipeline(w) && Pipeline(w.(relay := s')) == Pipeline(w);
    if route.Some? && sending.Sent? {
      SendInv(w.(relay := s'), route.value, command);
      HistoryInv(Next(w, Requests(kind, params, wait, open, sending)).(out := w.out),
                 Next(w, Requests(kind, params, wait, open, sending)));
    }
  }

  /** These histories are no part of the invariant. */
  lemma HistoryInv(w: World, w': World)
    requires Inv(w) && w'.relay == w.relay && w'.down == w.down && w'.up == w.up
    requires w'.ext == w.ext.(accepted := w'.ext.accepted, refused := w'.ext.refused, died := w'.ext.died)
    ensures Inv(w')
  {
    assert Pipeline(w') == Pipeline(w);
  }

  lemma DownLostInv(w: World, i: nat)
    requires Inv(w) && i < |w.down|
    ensures Inv(w.(down := RemoveAt(w.down, i)))
  {
    RemoveItem(w.down, i);
    assert Pipeline(w.(down := RemoveAt(w.down, i))) <= Pipeline(w);
  }

  lemma DownArrivesInv(w: World, i: nat)
    requires Inv(w) && i < |w.down| && IsCommandMessage(CommandJson(w.down[i].item))
    ensures Inv(w.(down := RemoveAt(w.down, i), ext := Intake(w.ext, w.down[i].item)))
  {
    RemoveItem(w.down, i);
    assert Pipeline(w.(down := RemoveAt(w.down, i), ext := Intake(w.ext, w.down[i].item))) == Pipeline(w);
  }

  lemma ForkInv(w: World)
    requires Inv(w) && w.ext.messagesQ != []
    ensures Inv(Next(w, Forks))
  {
    var w' := Next(w, Forks);
    assert w.ext.messagesQ == [w.ext.messagesQ[0]] + w.ext.messagesQ[1..];
    assert Pipeline(w') == Pipeline(w);
  }

  lemma CompleteInv(w: World, i: nat, outcome: Outcome)
    requires Inv(w) && i < |w.ext.running| && ValidOutcome(outcome)
    ensures Inv(Next(w, Completes(i, outcome)))
  {
    var w', e := Next(w, Completes(i, outcome)), Execution(w.ext.running[i], outcome);
    RemoveAtMultiset(w.ext.running, i);
    assert Commands(w'.ext.completed) == Commands(w.ext.completed) + [w.ext.running[i]];
    assert Pipeline(w') == Pipeline(w);
    forall r | Answers(w.ext.completed, r)
      ensures Answers(w'.ext.completed, r)
    {
      AnswersMore(w.ext.completed, e, r);
    }
    assert w'.ext.completed[|w.ext.completed|] == e;
    assert Answers(w'.ext.completed, ReplyFor(w.ext.running[i].id, outcome));
  }

  lemma DieInv(w: World, i: nat)
    requires Inv(w) && i < |w.ext.running|
    ensures Inv(Next(w, Dies(i)))
  {
    RemoveAtMultiset(w.ext.running, i);
    assert Pipeline(Next(w, Dies(i))) == Pipeline(w);
  }

  lemma ReplyInv(w: World, i: nat, sent: bool)
    requires Inv(w) && i < |w.ext.replies|
    ensures Inv(Next(w, Replies(i, sent)))
  {
    var w', r := Next(w, Replies(i, sent)), w.ext.replies[i];
    assert Answers(w.ext.completed, r);
    ResponseRoundTrip(r);
    assert Pipeline(w') == Pipeline(w);
    assert forall p :: p in w'.up ==> p in w.up || p.item == ResponseJson(r);
    assert forall q :: q in w'.ext.replies ==> q in w.ext.replies;
  }

  lemma EventIsNoReply(targetId: string, name: string, params: Option<Json>)
    ensures !IsResponse(EventJson(targetId, name, params))
  {
    var inner := Object([Member("targetId", Some(JString(targetId))), Member("method", Some(JString(name))),
                         Member("params", params)]);
    AbsentKey([Member("method", Some(JString("forwardCDPEvent"))), Member("params", Some(inner))], "id");
  }

  lemma UpLostInv(w: World, i: nat)
    requires Inv(w) && i < |w.up|
    ensures Inv(w.(up := RemoveAt(w.up, i)))
  {
    var lost := w.(up := RemoveAt(w.up, i));
    assert Pipeline(lost) == Pipeline(w);
    assert forall p :: p in lost.up ==> p in w.up;
  }

  /** A message that is no reply, or the reply of an execution, may reach the relay on any socket. */
  lemma ReceiveInv(w: World, ws: SocketId, message: Json, broken: set<ClientId>)
    requires Inv(w) && (IsResponse(message) ==> Answers(w.ext.completed, DecodeResponse(message)))
    ensures Inv(w.(relay := ReceiveJson(w.relay, ws, message, broken)))
  {
    var s' := ReceiveJson(w.relay, ws, message, broken);
    RelayRuns.ReceiveInv(w.relay, ws, message, broken);
    RelayRuns.ReceiveExtends(w.relay, ws, message, broken);
    ReceiveAddsItsReply(w.relay, ws, message, broken);
    AnsweredInv(w, s', message);
  }

  lemma AnsweredInv(w: World, s': State, message: Json)
    requires Inv(w) && RelayRuns.Inv(s') && RelayRuns.Extends(w.relay, s')
    requires IsResponse(message) ==> Answers(w.ext.completed, DecodeResponse(message))
    requires forall i, r :: 0 <= i < |s'.issues| && r in s'.issues[i].resolutions && r.origin.Replied? ==>
               (i < |w.relay.issues| && r in w.relay.issues[i].resolutions) ||
               (IsResponse(message) && r.response == DecodeResponse(message))
    ensures Inv(w.(relay := s'))
  {
    assert Pipeline(w.(relay := s')) == Pipeline(w);
  }

  lemma SendEventInv(w: World, act: Action)
    requires Inv(w) && act.SendsEvent? && Possible(w, act)
    ensures Inv(Next(w, act))
  {
    EventIsNoReply(act.targetId, act.name, act.eventParams);
    assert Pipeline(Next(w, act)) == Pipeline(w);
  }

  lemma UpArrivesInv(w: World, i: nat, broken: set<ClientId>)
    requires Inv(w) && Possible(w, UpArrives(i, broken))
    ensures Inv(Next(w, UpArrives(i, broken)))
  {
    var taken := w.(up := RemoveAt(w.up, i));
    UpLostInv(w, i);
    assert w.up[i] in w.up;
    ReceiveInv(taken, w.up[i].socket, w.up[i].item, broken);
    HistoryInv(taken.(relay := Next(w, UpArrives(i, broken)).relay), Next(w, UpArrives(i, broken)));
  }

  lemma NextInv(w: World, act: Action)
    requires Inv(w) && Possible(w, act)
    ensures Inv(Next(w, act))
  {
    match act
    case Relays(input) =>
      RelayRuns.StepInv(w.relay, input);
      RelayRuns.StepExtends(w.relay, input);
      StepAddsNoReply(w.relay, input);
      RelayStepInv(w, Step(w.relay, input));
    case Requests(kind, params, wait, open, sending) => RequestInv(w, kind, params, wait, open, sending);
    case DownArrives(i) =>
      if IsCommandMessage(CommandJson(w.down[i].item)) {
        DownArrivesInv(w, i);
      } else {
        DownLostInv(w, i);
        HistoryInv(w.(down := RemoveAt(w.down, i)), Next(w, act));
      }
    case DownLost(i) =>
      DownLostInv(w, i);
      HistoryInv(w.(down := RemoveAt(w.down, i)), Next(w, act));
    case Forks => ForkInv(w);
    case Completes(i, outcome) => CompleteInv(w, i, outcome);
    case Dies(i) => DieInv(w, i);
    case Replies(i, sent) => ReplyInv(w, i, sent);
    case SendsEvent(_, _, _, _) => SendEventInv(w, act);
    case SwitchesSocket(_) => assert Pipeline(Next(w, act)) == Pipeline(w);
    case UpArrives(i, broken) => UpArrivesInv(w, i, broken);
    case UpLost(i) =>
      UpLostInv(w, i);
      HistoryInv(w.(up := RemoveAt(w.up, i)), Next(w, act));
  }

  // ---- runs of the whole bridge ----

  ghost predicate IsRun(worlds: seq<World>, acts: seq<Action>) {
    && |worlds| == |acts| + 1
    && worlds[0] == START
    && forall i {:trigger acts[i]} :: 0 <= i < |acts| ==>
         Possible(worlds[i], acts[i]) && worlds[i + 1] == Next(worlds[i], acts[i])
  }

  lemma {:induction false} RunInv(worlds: seq<World>, acts: seq<Action>, n: nat)
    requires IsRun(worlds, acts) && n < |worlds|
    ensures Inv(worlds[n])
  {
    if n > 0 {
      RunInv(worlds, acts, n - 1);
      NextInv(worlds[n - 1], acts[n - 1]);
    }
  }

  /** A multiset without repetition comes from a sequence without repetition. */
  lemma CountOnce<T>(s: seq<T>, i: nat, j: nat)
    requires i < j < |s|
    ensures s[i] == s[j] ==> multiset(s)[s[i]] >= 2
  {
    RemoveAtMultiset(s, j);
    assert RemoveAt(s, j)[i] == s[i];
    assert s[i] in multiset(RemoveAt(s, j));
  }

  lemma NoDupById(w: World, cs: seq<Command>)
    requires Travels(w) && multiset(cs) <= multiset(w.ext.started)
    ensures forall i, j :: 0 <= i < j < |cs| ==> cs[i].id != cs[j].id
  {
    forall i, j | 0 <= i < j < |cs|
      ensures cs[i].id != cs[j].id
    {
      assert cs[i] in multiset(cs) && cs[j] in multiset(cs);
      assert cs[i] in Pipeline(w) && cs[j] in Pipeline(w);
      CountOnce(cs, i, j);
      assert multiset(cs)[cs[i]] <= multiset(w.ext.started)[cs[i]] <= Pipeline(w)[cs[i]] <= 1;
    }
  }

  /** No command is executed twice, and no two executions share an id, whatever is lost, reordered,
      delayed, or moved to another socket. */
  lemma NoCommandRunsTwice(worlds: seq<World>, acts: seq<Action>, n: nat)
    requires IsRun(worlds, acts) && n < |worlds|
    ensures var w := worlds[n];
            && (forall i, j :: 0 <= i < j < |w.ext.started| ==> w.ext.started[i].id != w.ext.started[j].id)
            && (forall i, j :: 0 <= i < j < |w.ext.completed| ==> w.ext.completed[i].command.id != w.ext.completed[j].command.id)
  {
    var w := worlds[n];
    RunInv(worlds, acts, n);
    NoDupById(w, w.ext.started);
    NoDupById(w, Commands(w.ext.completed));
    assert forall i :: 0 <= i < |w.ext.completed| ==> Commands(w.ext.completed)[i] == w.ext.completed[i].command;
  }

  lemma CompletedWasIssued(w: World, k: nat)
    requires Inv(w) && k < |w.ext.completed|
    ensures w.ext.completed[k].command in w.ext.started && Issued(w.relay, w.ext.completed[k].command)
  {
    var c := w.ext.completed[k].command;
    assert Commands(w.ext.completed)[k] == c;
    assert c in multiset(Commands(w.ext.completed)) && c in multiset(w.ext.started) && c in Pipeline(w);
  }

  /** End-to-end correlation: an HTTP request settled by a reply was settled by the outcome of executing
      that very command, which was executed exactly once. The reply may have come over a later socket
      than the command went out on, and past any number of other replies. */
  lemma RepliesAnswerTheirOwnCommand(worlds: seq<World>, acts: seq<Action>, n: nat, id: nat)
    requires IsRun(worlds, acts) && n < |worlds| && 1 <= id <= |worlds[n].relay.issues|
    ensures var w, issue := worlds[n], worlds[n].relay.issues[id - 1];
            issue.command.id == id &&
            forall r :: r in issue.resolutions && r.origin.Replied? ==>
              exists k ::
                && 0 <= k < |w.ext.completed|
                && w.ext.completed[k].command == issue.command
                && Reports(r.response, id, w.ext.completed[k].outcome)
                && forall j :: 0 <= j < |w.ext.completed| && w.ext.completed[j].command.id == id ==> j == k
  {
    var w, issue := worlds[n], worlds[n].relay.issues[id - 1];
    RunInv(worlds, acts, n);
    NoCommandRunsTwice(worlds, acts, n);
    forall r | r in issue.resolutions && r.origin.Replied?
      ensures exists k ::
                && 0 <= k < |w.ext.completed|
                && w.ext.completed[k].command == issue.command
                && Reports(r.response, id, w.ext.completed[k].outcome)
                && forall j :: 0 <= j < |w.ext.completed| && w.ext.completed[j].command.id == id ==> j == k
    {
      assert Answers(w.ext.completed, r.response);
      var k :| 0 <= k < |w.ext.completed| &&
               r.response == ReplyFor(w.ext.completed[k].command.id, w.ext.completed[k].outcome);
      CompletedWasIssued(w, k);
      assert r.response.id == id == w.ext.completed[k].command.id;
      assert w.ext.completed[k].command == issue.command;
      ReplyReports(id, w.ext.completed[k].outcome);
    }
  }

  /** A command the extension's guard refuses is never executed, so nothing but the relay itself ever
      settles its request. With `Messages.GuardAgreement`: exactly the ill-typed command envelopes. */
  lemma RefusedCommandsNeverRun(worlds: seq<World>, acts: seq<Action>, n: nat, id: nat)
    requires IsRun(worlds, acts) && n < |worlds| && 1 <= id <= |worlds[n].relay.issues|
    requires !IsCommandMessage(CommandJson(worlds[n].relay.issues[id - 1].command))
    ensures worlds[n].relay.issues[id - 1].command !in worlds[n].ext.started
    ensures forall r :: r in worlds[n].relay.issues[id - 1].resolutions ==> !r.origin.Replied?
  {
    var w, issue := worlds[n], worlds[n].relay.issues[id - 1];
    RunInv(worlds, acts, n);
    RepliesAnswerTheirOwnCommand(worlds, acts, n, id);
    if r :| r in issue.resolutions && r.origin.Replied? {
      var k :| 0 <= k < |w.ext.completed| && w.ext.completed[k].command == issue.command;
      CompletedWasIssued(w, k);
      assert false;
    }
  }

  /** Exactly-once settlement holds across the whole bridge. */
  lemma EveryRequestSettlesOnce(worlds: seq<World>, acts: seq<Action>, n: nat, id: nat)
    requires IsRun(worlds, acts) && n < |worlds| && 1 <= id < worlds[n].relay.nextId
    ensures id <= |worlds[n].relay.issues|
    ensures var s := worlds[n].relay;
            if id in s.pending then s.issues[id - 1].resolutions == []
            else |s.issues[id - 1].resolutions| == 1
  {
    RunInv(worlds, acts, n);
  }

  // ---- events ----

  /** An event message as the extension sends it: its target is never the empty string. */
  ghost predicate SentEvent(message: Json) {
    exists targetId: string, name: string, params: Option<Json> ::
      targetId != "" && (params.Some? ==> IsRecord(params.value)) && message == EventJson(targetId, name, params)
  }
}
