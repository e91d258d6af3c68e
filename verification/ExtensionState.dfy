/** The extension's half of the command bridge: its current socket, its message queue and its forked
    handlers, as functions on values. */
module ExtensionState {
  import opened Prelude
  import opened Messages

  /** One command the extension ran, and how that ended. */
  datatype Execution = Execution(command: Command, outcome: Outcome)

  datatype Extension = Extension(
    // `wsRef`, `messagesQ`, the handlers under way, and the replies about to be sent
    wsRef: Option<SocketId>,
    messagesQ: seq<Command>,
    running: seq<Command>,
    replies: seq<Response>,
    // history: the commands the guard took and those it refused, the commands handed to a handler, and
    // the handlers that came to a result or died
    accepted: seq<Command>,
    refused: seq<Command>,
    started: seq<Command>,
    completed: seq<Execution>,
    died: seq<Command>)

  const IDLE := Extension(None, [], [], [], [], [], [], [], [])

  /** `onmessage`: what the guard refuses is dropped. */
  function Intake(x: Extension, command: Command): Extension {
    if IsCommandMessage(CommandJson(command))
    then x.(messagesQ := x.messagesQ + [command], accepted := x.accepted + [command])
    else x.(refused := x.refused + [command])
  }

  /** `processMessages`: the oldest message gets a handler of its own. */
  function Fork(x: Extension): Extension
    requires x.messagesQ != []
  {
    x.(messagesQ := x.messagesQ[1..], running := x.running + [x.messagesQ[0]], started := x.started + [x.messagesQ[0]])
  }

  /** `handleMessage`: a handler has run its command to an outcome and made the reply. */
  function Complete(x: Extension, i: nat, outcome: Outcome): Extension
    requires i < |x.running|
  {
    x.(running := RemoveAt(x.running, i),
       completed := x.completed + [Execution(x.running[i], outcome)],
       replies := x.replies + [ReplyFor(x.running[i].id, outcome)])
  }

  /** A defect escapes the handler, which ends without a reply. */
  function Die(x: Extension, i: nat): Extension
    requires i < |x.running|
  {
    x.(running := RemoveAt(x.running, i), died := x.died + [x.running[i]])
  }

  /** A reply leaves its handler; `SocketFor` says where it goes. */
  function Hand(x: Extension, i: nat): Extension
    requires i < |x.replies|
  {
    x.(replies := RemoveAt(x.replies, i))
  }

  /** `send` uses the socket that is current when it runs. `sent` is false when that socket is not open
      or its own `send` throws; the failure is swallowed and the message lost. */
  function SocketFor(x: Extension, sent: bool): Option<SocketId> { if sent then x.wsRef else None }
}
