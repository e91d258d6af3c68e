# vibe-browser: a model of the relay, the extension's command loop, and the network recorder

vibe-browser lets a program drive the browser its user is working in. A local relay turns HTTP
requests into commands, sends them to a browser extension over a WebSocket, matches the replies, and
streams the extension's events to clients. A recorder follows that stream and writes network traffic
to a file. This project models these parts and proves what they keep over whole runs.

## How the model is laid out

- Each stateful component has a module of functions on values that says what each synchronous block
  does (`RelayState`, `ExtensionState`, `RecorderState`, `TabState`), and lemmas over runs of these
  functions (`RelayRuns`, `RelayAnswers`, `Bridge`, `BridgeAccounts`, `RecorderRuns`, `RecorderFilters`,
  `RecorderIndependence`, `TabRuns`). `RecorderEffects` spells out what each message does, `EventReading`
  what is read out of it.
  The relay, the recorder, the tab registry and the file writer are also classes (`RelayServer`, `Recorder`,
  `TabRegistry`, `JsonlWriter`) whose methods and loops are proved to compute the functions and to keep
  the invariants.
- A step is one synchronous block between awaits. A run is any sequence of enabled steps, so every
  interleaving is covered. What the outside decides is a parameter of the step: which sockets are open,
  whether a send or an enqueue throws, what a fetch or a browser call brings.
- `RelayState.Issue` keeps, for each command, every call of its request's `resolve`. `serial` in
  `RecorderState.HttpRecord` numbers the records put in the map. `Bridge.World` keeps what went out, what was
  lost and what arrived. All this is bookkeeping of the model.
- `Bridge` joins relay, per-socket queues in both directions, and the extension's queue and handlers.
  It covers one relay process and an extension that starts without older commands. The extension's
  current socket may change or vanish at any time, and messages may be lost at any time.
- `SseReader` is the recorder's incremental reader; `EventStreamStandard` is the interpreter of the
  WHATWG HTML Living Standard, sections 9.2.5 and 9.2.6; `SseRefinement` compares the two;
  `SseRoundTrip` joins the reader to what the relay prints. `Json.Print` follows `JSON.stringify`
  (ECMA-262, section 25.5.2), and `JsonReading` is a reader by recursive descent (RFC 8259) that reads its
  texts back.
- Cleanup raises the stop signal (skill/scripts/record-network.ts:579), which aborts the read the reader
  waits on (skill/scripts/record-network.ts:253, 287-293). A read that has been answered is handled before
  any signal or timer callback runs, so in `RecorderState` messages are received only until then. Fetches
  already started still complete.
- `EndToEnd` joins everything: the extension's events travel over the bridge to the relay, into a client's
  stream, through the reader in any chunks, and into the recorder. `RecorderFile` is the text of its file.
- In `TabState` an operation is one step, except that `ensureAttached` may also be cut at its awaits, with
  other steps between what it learns of a tab and what it registers.

## Where the code does not do what one might expect

- The recorder's target test (skill/scripts/record-network.ts:1022) lets an event with an empty target id
  pass, because the empty string is falsy. `RecorderFilters.BlankTargetEscapes` gives the exact condition
  under which what the recorder holds or has written then leaves the requested target,
  `RecorderFilters.BlankTargetMessage` such a message.
  This repository's own extension never sends one (extension/services/cdp.ts:101-102,
  extension/services/tab.ts:103-116), so on its stream every record names the requested target:
  `EndToEnd.RecorderIsConfined`.
- The recorder's documentation (skill/references/network-recorder.md) lists `status` records. The relay's
  status messages carry `type`, the recorder tests `method`, so none is ever written:
  `EndToEnd.RecorderWritesNoStatus`.
- A command that fails with an empty message is answered with an error status and `ok: true`:
  `Messages.ReplyOkMatchesStatus`, `Messages.SilentFailure`. This repository's own extension gives all its
  errors a text (extension/services/cdp.ts, extension/services/tab.ts), so it takes another peer on the
  WebSocket to send such a reply.
- A command envelope with ill-typed optional params is accepted by the relay and dropped by the extension:
  `Messages.GuardAgreement`, `Messages.IllTypedEnvelope`, `Bridge.RefusedCommandsNeverRun`.
- `ensureAttached` registers a tab that another debugger is attached to; when that one detaches, the entry
  is stale: `TabRuns.StepSound`, `TabRuns.TakeoverLeavesStaleEntry`. So it is when a detach notice is handled
  between the lookup and the registering: `TabRuns.LateRegistrationLeavesStaleEntry`. No notice is then
  queued that would remove the entry; only a later `detach` or `detachAll` does.
- Extra info that arrives before the event that makes the record is dropped: `RecorderOrder` says exactly
  when the order of a request's events matters.

## Model

| member | source | states |
|---|---|---|
| Bridge.RepliesAnswerTheirOwnCommand | extension/entrypoints/background.ts:277-305 | in every run of the whole bridge, a reply that settled a request reports the outcome of executing that request's own command, its result or its failure's text, code and details, and no other execution has its id; sockets may change, replies may overtake each other |
| Bridge.NoCommandRunsTwice | extension/entrypoints/background.ts:301-305 | in every run, no two handler starts and no two executions share a command id, under loss, delay and reconnection |
| Bridge.RefusedCommandsNeverRun | extension/services/ConnectionManager.ts:182-188 | in every run, a command the intake guard refuses is never started, so only the relay's own answers settle its request |
| Bridge.EveryRequestSettlesOnce | skill/scripts/relay.ts:435-474 | across the whole bridge a drawn id is pending and unresolved, or settled by exactly one resolution |
| Bridge.NextInv | skill/scripts/relay.ts:923-957 | every step of relay, sockets and extension keeps the invariant: each command is in at most one place, and each reply in flight comes from an execution |
| Bridge.ReceiveInv | skill/scripts/relay.ts:944-957 | a message may reach the relay on any socket: if it is no reply, or an execution's reply, the bridge invariant stands |
| Bridge.EventIsNoReply | extension/services/cdp.ts:104-111 | an event message of the extension is never taken for a reply |
| BridgeAccounts.NothingVanishes | extension/entrypoints/background.ts:277-305 | over every run: every command that went out is on its socket, lost there, refused, waiting, running, died, or came to an outcome; commands start in their order of arrival; every reply and event is about to be sent, on its socket, lost, or arrived; what arrived as news is forwarded, in that order |
| BridgeAccounts.RequestGoesOut | skill/scripts/relay.ts:435-474 | a command goes out, as it was asked for, on the extension's socket if that is open and the send does not fail |
| BridgeAccounts.ReplyGoesOut | extension/services/ConnectionManager.ts:80-96 | a reply goes out on the socket that is current then, or is lost |
| BridgeAccounts.ForwardedEventsAreSent | extension/services/cdp.ts:98-111 | in every run, whatever the relay forwards to its clients was sent by the extension in this run, as an event with a non-empty target, and no event is forwarded more often than it was sent, under loss, delay and reconnection |
| Messages.AcceptedBodies | skill/scripts/relay.ts:582-692 | exactly which JSON bodies the relay accepts as commands, in terms of their members |
| Messages.RefusedBodies | skill/scripts/relay.ts:593-691 | with which error code every other body is refused |
| Messages.AcceptedMeaning | skill/scripts/relay.ts:593-691 | an accepted command has the method, and the params members, of its body |
| Messages.GuardAgreement | extension/services/RelayProtocol.ts:147-163 | for every accepted body, the extension's guard takes the command if and only if the body is not a command envelope with ill-typed optional params |
| Messages.IllTypedEnvelope | skill/scripts/relay.ts:242-251 | such a body: accepted by the relay, refused by the extension |
| Messages.ErrorInfoRoundTrip | skill/scripts/relay.ts:73-80 | every encoded error info passes the guard and decodes to itself |
| Messages.ResponseRoundTrip | skill/scripts/relay.ts:205-215 | every reply the extension encodes passes the relay's guard and decodes to the same reply |
| Messages.DecodedReplyIsComplete | skill/scripts/relay.ts:73-80 | whatever the guard takes for a reply, decoding loses and makes up nothing of its members |
| Messages.ReplyReports | extension/services/RelayProtocol.ts:82-145 | the reply to an outcome is its result and nothing else, or no result and the failure's own text, code and details |
| Messages.OkMatchesStatus | skill/scripts/relay.ts:798-808 | the body's `ok` and the HTTP status agree except exactly when an error is present whose text is absent or empty |
| Messages.StatusOfCodes | skill/scripts/relay.ts:403-433 | the HTTP status of every reply, by its error code |
| Messages.ReplyOkMatchesStatus | extension/services/RelayProtocol.ts:129-145 | for the extension's replies they disagree exactly when a command failed with an empty message |
| Messages.SilentFailure | skill/scripts/relay.ts:798-808 | such a failure: answered with status 502 and `ok: true` |
| Json.PrintTidy | skill/scripts/relay.ts:346 | no `JSON.stringify` text, at any indentation, holds a blank line or a carriage return, starts with whitespace or ends in a line feed; without indentation it holds no line feed |
| JsonReading.PrintInjective | skill/scripts/relay.ts:346 | different values have different `JSON.stringify` texts, at every indentation |
| JsonReading.ValueRoundTrip | skill/scripts/record-network.ts:317 | inside a longer text the reader takes exactly the printed value off the front and leaves the rest, at every indentation |
| JsonReading.ParseInverts | skill/scripts/record-network.ts:317 | reading what `JSON.stringify` printed gives back the value, at every indentation |
| RelayServer.Relay.constructor | skill/scripts/relay.ts:304-316 | the relay starts in the initial state, which satisfies the invariant |
| RelayServer.Relay.ResolvePromise | skill/scripts/relay.ts:364 | resolving adds one resolution to that request only |
| RelayServer.Relay.RespondPending | skill/scripts/relay.ts:357-365 | a pending request is settled once and its timer cleared; any other id changes nothing |
| RelayServer.Relay.FailSlot | skill/scripts/relay.ts:369-371 | one round of the failing loop settles exactly the entry under the cursor |
| RelayServer.Relay.FailAllPending | skill/scripts/relay.ts:367-373 | the loop that deletes from the map it iterates ends having settled exactly the ids pending at entry, with all timers cleared |
| RelayServer.Relay.SendCommandToExtension | skill/scripts/relay.ts:435-474 | the four ways a send turns out: no open socket, sent and waiting with a timer, or settled at once because the send failed |
| RelayServer.Relay.HandleCommand | skill/scripts/relay.ts:778-797 | a command draws the next id and is sent; the relay invariant stands |
| RelayServer.Relay.OnTimeout | skill/scripts/relay.ts:455-463 | a fired timer settles its own request as a timeout of the length it was armed with |
| RelayServer.Relay.SseEnqueue | skill/scripts/relay.ts:349-353 | one client gets the frame, or is dropped if its enqueue throws |
| RelayServer.Relay.SseBroadcast | skill/scripts/relay.ts:345-355 | the loop gives every healthy client the frame and drops every broken one, skipping nobody |
| RelayServer.Relay.StopExtensionKeepalive | skill/scripts/relay.ts:549-553 | afterwards no interval is live, whichever was |
| RelayServer.Relay.StartExtensionKeepalive | skill/scripts/relay.ts:555-576 | afterwards exactly one interval is live, a new one bound to the given socket |
| RelayServer.Relay.OnOpen | skill/scripts/relay.ts:899-922 | the new socket takes over; requests waiting on an open predecessor fail; the invariant stands even if the predecessor's close handler runs inside |
| RelayServer.Relay.OnClose | skill/scripts/relay.ts:972-998 | the close of the current socket fails all pending requests with its code and reason; the close of any other changes nothing |
| RelayServer.Relay.OnMessage | skill/scripts/relay.ts:923-971 | replies settle their pending request or are broadcast as orphans; events, logs, unknown and unparsable messages are broadcast |
| RelayServer.Relay.OnSubscribe | skill/scripts/relay.ts:838-872 | a client joins the event stream from here on, unless its request is aborted |
| RelayServer.Relay.OnKeepaliveTick | skill/scripts/relay.ts:860-867 | a tick adds a comment to that client's stream only |
| RelayServer.Relay.OnUnsubscribe | skill/scripts/relay.ts:822-836 | the client leaves the set |
| RelayRuns.StepInv | skill/scripts/relay.ts:304-316 | every input keeps: timers are exactly the pending ids', pending ids were drawn, no extension means nothing pending and no interval, an extension means exactly one interval bound to it |
| RelayRuns.SettlesExactlyOnce | skill/scripts/relay.ts:357-373 | in every reachable state a drawn id is pending with no resolution, or settled with exactly one that bears its id |
| RelayRuns.SettlementIsFinal | skill/scripts/relay.ts:357-365 | once settled, a request keeps its one resolution for the rest of the run |
| RelayRuns.FirstCauseSettles | skill/scripts/relay.ts:357-373 | for each input and pending id: the input settles it exactly when it is its timer, its reply, the current socket's close, or a replacement of an open socket, and then with that cause's answer, details included |
| RelayAnswers.SettlementHasItsCause | skill/scripts/relay.ts:333-474 | over every run each settled request was settled by one input, the one its answer names: its reply, its own timer with the time it was given (status 504), the close of the extension's socket with that code and reason (502), a failed send with that cause (502), a replacement (502), or no connection (503); each of the relay's own answers has an error text and is not `ok` |
| RelayRuns.NewRequest | skill/scripts/relay.ts:435-474 | what becomes of a new request: pending with a fresh timer exactly when it went out, else settled on the spot, as not connected or as failed to send with the cause |
| RelayRuns.Drain | skill/scripts/relay.ts:455-463 | firing the armed timers in any order settles every pending request as a timeout of its own length, in as many steps as there are pending requests, and touches no other |
| RelayRuns.ExtensionIsLatest | skill/scripts/relay.ts:899-921 | after any run, a socket is the extension if and only if it was opened last and has not closed since |
| RelayRuns.StatusIsCurrent | skill/scripts/relay.ts:972-997 | the last status broadcast, if any, says whether an extension is connected; without one there is none |
| RelayAnswers.StepBroadcasts | skill/scripts/relay.ts:899-998 | what each input adds to the broadcasts: which status, orphan, forwarded or unknown message |
| RelayAnswers.StepReaches | skill/scripts/relay.ts:345-355 | what each input sends to a client and whether it stays: a live client gets every broadcast up to the first that fails on it, and a tick brings a comment |
| RelayAnswers.HelloTellsTheTruth | skill/scripts/relay.ts:843-856 | over every run the hello of a client says whether an extension was connected when it subscribed |
| RelayRuns.StepForwards | skill/scripts/relay.ts:958-961 | a step forwards to clients exactly the event or log it received, if it received one |
| RelayRuns.ForwardsTheNews | skill/scripts/relay.ts:958-961 | over every run, what was forwarded is exactly the events and logs received, in their order |
| RelayRuns.HearsEveryBroadcast | skill/scripts/relay.ts:838-876 | a live client heard exactly the broadcasts made since it subscribed, in order |
| RelayRuns.LaterHearsSuffix | skill/scripts/relay.ts:345-355 | of two live clients, the later one heard a suffix of what the earlier one heard |
| SseReader.Deliver | skill/scripts/record-network.ts:309-321 | one raw event leads to the calls its data text calls for, none without a data line, a second one if the callback throws |
| SseReader.DrainBuffer | skill/scripts/record-network.ts:302-322 | the inner loop delivers every closed event of the buffer and leaves its unclosed tail |
| SseReader.ReadBody | skill/scripts/record-network.ts:285-323 | for every chunking, the calls and the final buffer are those of the whole text |
| SseReader.StreamSse | skill/scripts/record-network.ts:270-339 | over reconnects, the calls are those of each body alone, up to the stop signal: no partial event leaks into the next body |
| SseReader.TwoPieces | skill/scripts/record-network.ts:300-322 | reading in two pieces equals reading whole, wherever the cut falls, inside a separator too |
| SseReader.ResidualIsQuiet | skill/scripts/record-network.ts:302-304 | what stays in the buffer holds no closed event |
| SseReader.LinesEndEitherWay | skill/scripts/record-network.ts:309 | a line of a raw event ends at LF or at CRLF |
| SseReader.CallsSpelledOut | skill/scripts/record-network.ts:316-320 | each data text is handed over once, parsed, or as it is if it is no JSON |
| SseReader.ThrowIsToldAsText | skill/scripts/record-network.ts:316-320 | a callback that throws is called once more, with the text |
| SseReader.StopEndsCalls | skill/scripts/record-network.ts:270-339 | bodies are read one after the other until one is stopped; then no call is made |
| SseRefinement.LineAgreement | skill/scripts/record-network.ts:310-312 | on one line, recorder and standard agree if and only if the line is well spaced |
| SseRefinement.AgreesWithStandard | skill/scripts/record-network.ts:302-322 | on every LF-only stream without byte order mark, the recorder delivers the events of the WHATWG HTML Living Standard (section 9.2.6) if and only if every line of a closed event is well spaced; unclosed events are dropped by both |
| SseRefinement.CrlfStreamsDiffer | skill/scripts/record-network.ts:303 | with CRLF line ends the recorder delivers nothing where the standard dispatches the field |
| SseRoundTrip.StreamTexts | skill/scripts/relay.ts:843-866 | a printed stream reads back as its pushes, in order; keepalives add nothing and nothing is left over |
| SseRoundTrip.ReadsBack | skill/scripts/record-network.ts:300-322 | for every chunking of a printed stream the callback gets exactly the pushed values |
| SseRoundTrip.ReadsPrefix | skill/scripts/record-network.ts:287-323 | a reader cut off anywhere got a prefix of the pushed values, each one whole |
| SseRoundTrip.ClientHearsBroadcasts | skill/scripts/relay.ts:345-355 | in every run, a greeted client that is still live and reads its stream is handed a hello that says whether an extension was connected when it subscribed, and then exactly the broadcasts since |
| SseRoundTrip.MessagesSayWhatTheyMean | skill/scripts/relay.ts:925-962 | the type and members of each of the relay's own messages |
| SseRoundTrip.SomeReaderInverts | skill/scripts/record-network.ts:317 | what the round trips ask of `JSON.parse` can be met |
| SseRoundTrip.OwnMessagesHaveNoMethod | skill/scripts/relay.ts:919 | none of the relay's own messages carries the member the recorder dispatches on |
| JsonlWriter.JsonlWriter.Write | skill/scripts/record-network.ts:227-236 | the file stays the texts of the records joined by blank lines plus a final line feed; a closed writer drops the record |
| JsonlWriter.JsonlWriter.Close | skill/scripts/record-network.ts:238-242 | closing keeps what was written |
| JsonlWriter.FileSplitsIntoRecords | skill/scripts/record-network.ts:227-236 | splitting the file on blank lines gives back every record text, for all records and indentations |
| JsonlWriter.FileDeterminesRecords | skill/scripts/record-network.ts:227-236 | runs of the writer that leave the same file wrote the same records |
| RecorderFile.CleanupLeavesFile | skill/scripts/record-network.ts:576-595 | the file a cleanup leaves, whatever still completes: split on blank lines it is the texts of what was written before, of every live record in map order, and last of the stop record |
| RecorderFile.FileOnlyGrows | skill/scripts/record-network.ts:227-236 | over every run the file at some time is the beginning of the file later |
| RecorderFile.FileTellsOutput | skill/scripts/record-network.ts:227-236 | runs that leave the same file wrote the same records in the same order, if different records are laid out differently |
| Recorder.Recorder.OnHttpEvent | skill/scripts/record-network.ts:638-862 | an event about one request leaves every other record and all connections as they were, writes only about its own, and keeps the books |
| Recorder.Recorder.OnPostFetched | skill/scripts/record-network.ts:694-703 | late post data goes to the record then live under the id, if any |
| Recorder.Recorder.OnBodyFetched | skill/scripts/record-network.ts:803-820 | a late body completes and writes the record then live under the id, if any |
| Recorder.Recorder.OnWsEvent | skill/scripts/record-network.ts:864-1002 | an event about one connection leaves every other connection and all HTTP records as they were, writes only about its own, and keeps the books |
| Recorder.Recorder.OnMsg | skill/scripts/record-network.ts:1004-1026 | messages of other targets and unknown kinds are ignored; the callback throws exactly on an admitted event whose name is no text, having changed nothing; the books are kept |
| Recorder.Recorder.EmitEverything | skill/scripts/record-network.ts:581-583 | the loop over a copy of the keys writes every live record |
| Recorder.Recorder.Cleanup | skill/scripts/record-network.ts:576-585 | the first call raises the stop signal, writes what is live and one stop record; later calls change nothing |
| Recorder.Recorder.CloseWriter | skill/scripts/record-network.ts:594 | the writer is closed and the books stay in order |
| RecorderRuns.StepBooks | skill/scripts/record-network.ts:638-862 | every event, fetch and cleanup keeps the books: live, written and replaced records are disjoint and make up all records ever put in the map; after cleanup none is live, and the writer closes only then |
| RecorderRuns.EveryRecordIsAccountedFor | skill/scripts/record-network.ts:650-706 | in every reachable state each record is exactly one of live, written at exactly one place, or replaced |
| RecorderRuns.NothingIsLost | skill/scripts/record-network.ts:576-585 | once cleanup was called nothing is live, and every record ever made was written at exactly one place or replaced |
| RecorderRuns.QuietAfterCleanup | skill/scripts/record-network.ts:803-820 | after cleanup nothing is written and no record is made, however many fetches still complete |
| RecorderRuns.OnlyRequestsReplace | skill/scripts/record-network.ts:686 | a record is replaced only by a later request with the same id, and it is the one that was live |
| RecorderRuns.CleanupWritesEverything | skill/scripts/record-network.ts:576-585 | the first cleanup writes every live record, in map order, and then the stop record |
| RecorderRuns.StopsOnce | skill/scripts/record-network.ts:597-605 | one stop record is written if cleanup was ever called, none otherwise, however often it is called |
| RecorderRuns.OutputGrows | skill/scripts/record-network.ts:227-236 | what is written stays written |
| RecorderRuns.BodyFetchWrites | skill/scripts/record-network.ts:803-820 | a completed fetch writes the live record with the body or error it brought, and nothing if the id is gone |
| RecorderRuns.FailureWrites | skill/scripts/record-network.ts:828-856 | a failed request is written at once with the event's error, and is the live record if there was one |
| RecorderRuns.RecordsKeepTheirIdentity | skill/scripts/record-network.ts:660-686 | over every run a record keeps request id, URL and verb until and when it is written |
| RecorderEffects.RequestMakesRecord | skill/scripts/record-network.ts:650-706 | a request of an admitted target and URL makes a new record live, with its target, URL and verb and nothing else; its post data is asked for exactly if it may have some and a target is known |
| RecorderEffects.RequestExtraInfoAdds | skill/scripts/record-network.ts:708-718 | extra request data is added to a live record, all else is kept |
| RecorderEffects.ResponseAdds | skill/scripts/record-network.ts:720-776 | a response sets URL and status, keeps what earlier events and fetches brought, and makes a record where there is none |
| RecorderEffects.ResponseExtraInfoAdds | skill/scripts/record-network.ts:778-796 | extra response data is added to a live record, before or after its response |
| RecorderEffects.FinishedAsksForBody | skill/scripts/record-network.ts:798-826 | a finished request stays as it is while exactly one fetch of its body is started; only without a target to ask it is written at once |
| RecorderEffects.FailureEndsRecord | skill/scripts/record-network.ts:828-856 | a failed request is written at once, with its error and what was recorded of it |
| RecorderEffects.OtherEventsLeaveRaw | skill/scripts/record-network.ts:858-861 | any other event leaves at most its raw message |
| RecorderEffects.PostDataIsSet | skill/scripts/record-network.ts:694-703 | late post data is set on the record then live under the id |
| RecorderEffects.BodyEndsRecord | skill/scripts/record-network.ts:803-820 | a late body or its error completes and writes the record then live under the id |
| RecorderEffects.OtherMessages | skill/scripts/record-network.ts:1004-1022 | parse errors and statuses are recorded, other messages and other targets' events are not |
| RecorderEffects.ConnectionEvent | skill/scripts/record-network.ts:484-510 | an event on a connection takes over a missing target and URL and writes exactly one record of its kind with them, unless the connection was or is now filtered out by its URL; a close forgets it |
| RecorderEffects.FetchesAreStarted | skill/scripts/record-network.ts:798-820 | over every run each fetch under way was started by an event of its request |
| RecorderEffects.WrittenForACause | skill/scripts/record-network.ts:798-856 | over every run each HTTP record was written by a failure, by a body fetch that a `loadingFinished` of its request started, by a `loadingFinished` without a target, or by the first cleanup |
| RecorderEffects.OrdinaryRecordsHadTheirBodyFetched | skill/scripts/record-network.ts:798-820 | if every event names its target, a record written before cleanup has failed or was written when its body fetch completed |
| EventReading.EventIsRead | extension/services/cdp.ts:104-111 | an event the extension sends is taken for that event, of that target |
| EventReading.ParamsAreRead | skill/scripts/record-network.ts:646-651 | each part of an event's params is read from its own member |
| JsTable.OrderKept | skill/scripts/record-network.ts:472 | setting keeps the place of a known key and puts a new one last; deleting takes one key out of the order |
| RecorderIndependence.RequestsDoNotInterfere | skill/scripts/record-network.ts:472-473 | over every run, what is held and written about one request or connection is what the recorder would hold and write had it got the inputs about that one alone |
| RecorderIndependence.SameInputSameEffect | skill/scripts/record-network.ts:638-1002 | states that hold the same about an id are taken by an input about it to states that hold the same |
| RecorderIndependence.OthersDoNotTouch | skill/scripts/record-network.ts:638-1002 | an input about another id changes nothing held or written about this one |
| RecorderIndependence.NothingIsInvented | skill/scripts/record-network.ts:484-502 | whatever is held or written about an id, an event about it was received before |
| RecorderOrder.ResponseAndExtraInfo | skill/scripts/record-network.ts:720-796 | a response and its extra info may come in either order if and only if the record is live or the response filtered out |
| RecorderOrder.RequestAndExtraInfo | skill/scripts/record-network.ts:650-718 | a request and its extra info may come in either order if and only if the request is filtered out |
| RecorderOrder.ResponseAndPostData | skill/scripts/record-network.ts:694-776 | late post data and a response may come in either order if and only if the record is live, the response filtered out, or there is no post data |
| RecorderFilters.RunConfined | skill/scripts/record-network.ts:1022 | over every run all records written have an admitted URL and an admitted target, known as exactly as the events received name theirs |
| RecorderFilters.BlankTargetEscapes | skill/scripts/record-network.ts:1022 | over all events, what the recorder holds and has written keeps to the requested target unless the event has an empty target id and makes something new, or is a response to a record without a target |
| RecorderFilters.BlankTargetMessage | skill/scripts/record-network.ts:1016-1022 | such a message: the relay forwards it, and a recorder of one target takes it as its own |
| RecorderFilters.FilteredForever | skill/scripts/record-network.ts:504-510 | a connection filtered out stays so under the same URL for the rest of the run |
| RecorderFilters.UrlKeptUntilClosed | skill/scripts/record-network.ts:864-985 | over every run a connection keeps its non-empty URL until its close record is written |
| EndToEnd.RecorderIsConfined | extension/services/cdp.ts:98-111 | over every run of extension, relay, reader and recorder, with any cuts and chunks, every record a recorder of one target writes names that target |
| EndToEnd.RecordsComeFromEvents | skill/scripts/record-network.ts:1004-1026 | over these runs every HTTP or WebSocket record is about a request named by an event that the extension sent in the run |
| EndToEnd.EventsAreNotDuplicated | skill/scripts/record-network.ts:300-322 | over these runs no event is handed to the recorder more often than the extension sent it |
| EndToEnd.SentRequestIsRecorded | skill/scripts/record-network.ts:1016-1025 | a request event of an admitted target that is handed to the recorder makes a record with its target, URL and verb |
| EndToEnd.LiveRecorderMissesNothing | skill/scripts/record-network.ts:285-322 | a recorder that read all of its live client's stream was handed all that was forwarded since the client joined |
| EndToEnd.ForwardedRequestIsRecorded | skill/scripts/record-network.ts:1016-1025 | so every such request event forwarded while the client is live makes its record |
| EndToEnd.RecorderWritesNoStatus | skill/scripts/record-network.ts:1010-1013 | a recorder that reads a client's stream of any relay run writes no status record and no parse error |
| EndToEnd.SecondCallIsSafe | skill/scripts/record-network.ts:316-320 | the callback never throws when it is called again with the raw text, so no exception leaves the reading loop |
| TabRegistry.TabRegistry.SetTargetId | extension/services/tab.ts:58-63 | one entry is set, the others stay |
| TabRegistry.TabRegistry.DeleteTab | extension/services/tab.ts:65-70 | one entry goes, the others stay |
| TabRegistry.TabRegistry.AttachDebugger | extension/services/tab.ts:72-116 | attach and look up: each may fail, and what was done before stays done |
| TabRegistry.TabRegistry.Attach | extension/services/tab.ts:72-132 | attach, look up, register, tell the relay: each may fail, and what was done before stays done |
| TabRegistry.TabRegistry.Ensure | extension/services/tab.ts:161-214 | a registered tab is answered from the map, a listed one is registered, any other is attached |
| TabRegistry.TabRegistry.FinishEnsure | extension/services/tab.ts:180-213 | the target seen is registered, though other steps came in between, and the relay is told |
| TabRegistry.TabRegistry.DetachTab | extension/services/tab.ts:223-245 | the entry goes only after the relay was told, the attachment only if asked |
| TabRegistry.TabRegistry.HandleDebuggerDetach | extension/services/tab.ts:247-254 | a notification removes its tab's entry |
| TabRegistry.TabRegistry.DetachAllTabs | extension/services/tab.ts:269-277 | every registered tab is detached, failures ignored, and the registry emptied |
| TabRuns.StepSound | extension/services/tab.ts:161-277 | a step keeps every entry attached or about to be removed, if and only if it neither takes over another debugger's attachment nor registers a target seen earlier that is not attached any more, with no notice queued |
| TabRuns.RegistryIsSound | extension/services/tab.ts:50-70 | over every run without such a takeover or late registration every entry is attached with its target or its removal is queued |
| TabRuns.OthersAreKept | extension/services/tab.ts:58-70 | a step about other tabs leaves entry, attachment and sightings of a tab as they were |
| TabRuns.RegistrationLasts | extension/services/tab.ts:50-70 | over every run a registered tab stays registered with its target until its own detach, a notice for it, `detachAll`, or another registration of it |
| TabRuns.NoticeRemovesItsTab | extension/services/tab.ts:247-254 | a notice, when handled, takes away its own tab's entry and nothing else |
| TabRuns.DetachRemovesItsTab | extension/services/tab.ts:223-245 | a detach takes the entry away if the relay could be told, and the attachment if asked to and the browser complies |
| TabRuns.DetachAllEmpties | extension/services/tab.ts:269-277 | the registry is emptied and every tab but the stuck ones detached |
| TabRuns.RegisterSetsItsTab | extension/services/tab.ts:180-184 | a target seen is registered, whatever was there, and nothing else changes |
| TabRuns.AttachSpelledOut | extension/services/tab.ts:72-132 | what an attach changes, calls and answers, by how each of its calls turns out |
| TabRuns.TakeoverLeavesStaleEntry | extension/services/tab.ts:180-190 | a run that ends with an entry nothing is attached to and no queued notice will remove |
| TabRuns.LateRegistrationLeavesStaleEntry | extension/services/tab.ts:88-116 | another such run: the detach notice is handled between lookup and registration |
| TabRuns.EnsureIsIdempotent | extension/services/tab.ts:161-169 | a successful ensure leaves its target registered, and a second one answers the same with no call into the browser |
| TabRuns.FailedLookupIsRecovered | extension/services/tab.ts:88-116 | an attach whose lookup failed is recovered by the next ensure without attaching again |
| TabRuns.AttachesOnlyWhenNeeded | extension/services/tab.ts:180-213 | the debugger is attached exactly to tabs neither registered nor listed |
| TabRuns.FailureKeepsRegistry | extension/services/tab.ts:161-214 | a failed ensure leaves the registry as it was, unless the relay could not be told of a registered attachment, because no socket was open or its send threw |
| TabRuns.DetachEachKeeps | extension/services/tab.ts:271-275 | the detach loop frees every tab but the stuck ones and leaves the rest alone |

## Left out

- HTTP server, WebSockets, streams, timers, browser calls, the effect runtime and UTF-8 decoding: each call is a step parameter that says how it turns out.
- Popup, badge, alarms, configuration files and `get-active-target.ts`: thin plumbing.
- `StateManager.ts`: its branches are settled one by one.
- The reconnect loop of `ConnectionManager.ts`: the model only lets the current socket change or vanish at any time.
- The extension's command loop is modelled by functions on its state (`ExtensionState`), as steps of `Bridge`, and not as a class.
- The health endpoint's probe: it is one more command to the relay, with its own timeout; its report is not modelled.
- Recorder start-up and header redaction, truncation of bodies and payloads, time stamps, and the response fields that are copied without being read: they decide nothing else.
- Recorder.Recorder.OnHttpEvent: records and connections are values in the map, so sharing of one record object by two references is not captured (no reference outlives an await in the code). A JSON value with a `toString` member of its own, whose conversion to text would throw, is not modelled.
- Recorder.Recorder.Cleanup: the commands that disable the browser's events, between the last record and the closing of the writer, are not modelled.
- RecorderFile.CleanupLeavesFile: the JSON layout of a record, with its times and copied fields, is any function of the record.
- SseReader.Deliver: the second call of the callback is taken not to throw; for the recorder's callback that is `EndToEnd.SecondCallIsSafe`.
- SseReader.StreamSse: the decoder is shared by all bodies, so the bytes of a character cut off by a disconnect would show at the start of the next body; the model starts from characters.
- SseRefinement.AgreesWithStandard: event types, ids and retry times of the standard are left out, as the recorder ignores them.
- SseRoundTrip.ReadsBack: `JSON.parse` is any function that reads back the printed texts, as `JsonReading.Parse` does; its result on other texts is open.
- JsonReading.ParseInverts: the reader keeps every member of an object that repeats a key, keeps a number with a fraction or an exponent as its text, and refuses escaped halves of surrogate pairs, which are no characters of the model.
- EndToEnd.RecorderIsConfined: the recorder reads one response body; a reconnect subscribes a new client.
- Json.PrintTidy: a number that is not printed as plain digits is carried as its printed text.
- Messages.ResponseRoundTrip: a reply whose id is no integer is decoded with an id no command has; nothing else is lost, as orphans are broadcast undecoded.
- RelayRuns.StepInv: ids are unbounded naturals, and the restart of numbering in a new relay process is outside the model.
- TabRuns.RegistryIsSound: only `ensureAttached` is cut at its awaits, the other operations are single steps; the detaching of leftovers at extension start is taken to be over before the first command.
- "Every command in `pending` was sent to the current socket" does not hold of the code: replacing a socket that is no longer open leaves its commands pending (skill/scripts/relay.ts:902-916).
- "Every command gets a reply from the extension" does not hold of the code: a defect in `createTab` escapes the handler (extension/services/tab.ts:263-265), which is the step `Dies`.
- "Post data belongs to the record it was requested for" does not hold of the code: a redirect reuses the request id (skill/scripts/record-network.ts:686-703).
