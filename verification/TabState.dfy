/** The extension's tab registry over the browser's debugger, as functions on values. An operation may fail
    at any of its calls; `ensureAttached` may also be cut in two at its awaits, with other steps between
    what it learns and what it registers. `TabRegistry` is the program. */
module TabState {
  import opened Prelude

  type TabId = int

  datatype Call = GetTargets | AttachTo(tab: TabId) | TargetInfoOf(tab: TabId) | DetachFrom(tab: TabId)

  datatype State = State(
    // the registry: tab -> target
    tabs: map<TabId, string>,
    // the browser: the tabs this extension's debugger is attached to, those another debugger is
    // attached to, and the detach notifications not handled yet
    own: map<TabId, string>,
    foreign: map<TabId, string>,
    notices: seq<TabId>,
    // operations under way that know a target and are about to register it
    sightings: multiset<Sighting>,
    // history of calls into the browser
    calls: seq<Call>)

  datatype Sighting = Sighting(tab: TabId, targetId: string)

  const INIT := State(map[], map[], map[], [], multiset{}, [])

  /** How `Target.getTargetInfo` comes back. */
  datatype Lookup = LookupFails | NoTargetId | Found

  /** How a message to the relay fares: it is sent, there is no open socket, or the socket's send throws. */
  datatype Delivery = Sent | NotOpen | SendThrows

  /** How the calls of one operation turn out. `target` is the id of the tab's target. */
  datatype Luck = Luck(targetsListed: bool, attached: bool, lookup: Lookup, delivery: Delivery, target: string)

  datatype Result = Ok(targetId: string) | Err(code: string)

  /** The end of an operation that registered the target and then told the relay. */
  function Told(delivery: Delivery, targetId: string): Result {
    match delivery
    case Sent => Ok(targetId)
    case NotOpen => Err("RELAY_NOT_CONNECTED")
    case SendThrows => Err("WS_SEND_FAILED")
  }

  function Called(s: State, call: Call): State { s.(calls := s.calls + [call]) }

  /** What an operation learns before it registers anything. */
  datatype Sight = Known(targetId: string) | Seen(targetId: string) | Failure(code: string)

  /** `attach`, up to its lookup. The debugger cannot be attached twice by the same extension. */
  function AttachAndLook(s: State, tab: TabId, luck: Luck): (State, Sight) {
    var asked := Called(s, AttachTo(tab));
    if !luck.attached || tab in s.own then (asked, Failure("DEBUGGER_ATTACH_FAILED"))
    else
      var on := Called(asked.(own := asked.own[tab := luck.target]), TargetInfoOf(tab));
      if luck.lookup.LookupFails? then (on, Failure("TARGET_INFO_LOOKUP_FAILED"))
      else if luck.lookup.NoTargetId? then (on, Failure("INVALID_TARGET_INFO"))
      else (on, Seen(luck.target))
  }

  function Register(s: State, tab: TabId, targetId: string): State { s.(tabs := s.tabs[tab := targetId]) }

  /** The rest of an operation: a target just seen is registered, and the relay is told. */
  function Conclude(s: State, tab: TabId, sight: Sight, delivery: Delivery): (State, Result) {
    match sight
    case Known(targetId) => (s, Ok(targetId))
    case Seen(targetId) => (Register(s, tab, targetId), Told(delivery, targetId))
    case Failure(code) => (s, Err(code))
  }

  /** `attach` */
  function Attach(s: State, tab: TabId, luck: Luck): (State, Result) {
    var (on, sight) := AttachAndLook(s, tab, luck);
    Conclude(on, tab, sight, luck.delivery)
  }

  /** The target of a tab that some debugger is attached to, as `getTargets` lists it. */
  function Listed(s: State, tab: TabId): Option<string> {
    if tab in s.own then Some(s.own[tab]) else if tab in s.foreign then Some(s.foreign[tab]) else None
  }

  predicate Tracked(s: State, tab: TabId) { tab in s.tabs && s.tabs[tab] != "" }

  /** `ensureAttached`, up to what it registers. */
  function Look(s: State, tab: TabId, luck: Luck): (State, Sight) {
    if Tracked(s, tab) then (s, Known(s.tabs[tab]))
    else
      var asked := Called(s, GetTargets);
      if !luck.targetsListed then (asked, Failure("GET_TARGETS_FAILED"))
      else if Listed(s, tab).Some? then (asked, Seen(Listed(s, tab).value))
      else AttachAndLook(asked, tab, luck)
  }

  /** `ensureAttached`, when nothing happens during its awaits. */
  function EnsureAttached(s: State, tab: TabId, luck: Luck): (State, Result) {
    var (looked, sight) := Look(s, tab, luck);
    Conclude(looked, tab, sight, luck.delivery)
  }

  /** `detach`: `sent` tells whether the relay could be told, `detached` whether the browser complied. */
  function Detach(s: State, tab: TabId, shouldDetachDebugger: bool, sent: bool, detached: bool): State {
    if !Tracked(s, tab) || !sent then s
    else
      var dropped := s.(tabs := s.tabs - {tab});
      if !shouldDetachDebugger then dropped
      else
        var asked := Called(dropped, DetachFrom(tab));
        if detached then asked.(own := asked.own - {tab}) else asked
  }

  /** `handleDebuggerDetach`, on the oldest notification. */
  function HandleNotice(s: State): State
    requires s.notices != []
  {
    var tab := s.notices[0];
    var rest := s.(notices := s.notices[1..]);
    if Tracked(rest, tab) then rest.(tabs := rest.tabs - {tab}) else rest
  }

  /** `detachAll`: `stuck` are the tabs whose detach call fails; the registry is emptied all the same. */
  function DetachAll(s: State, order: seq<TabId>, stuck: set<TabId>): State {
    DetachEach(s, order, stuck).(tabs := map[])
  }

  function DetachEach(s: State, order: seq<TabId>, stuck: set<TabId>): State
    decreases |order|
  {
    if order == [] then s
    else
      var asked := Called(s, DetachFrom(order[0]));
      DetachEach(if order[0] in stuck then asked else asked.(own := asked.own - {order[0]}), order[1..], stuck)
  }

  // ---- one step of registry and browser ----

  datatype Input =
    | Ensures(tab: TabId, luck: Luck)
    | Attaches(tab: TabId, luck: Luck)
    | Looks(tab: TabId, luck: Luck)                      // the first part of `ensureAttached`
    | Registers(sighting: Sighting)                      // the second part of one that saw a target
    | Detaches(tab: TabId, shouldDetachDebugger: bool, sent: bool, detached: bool)
    | Handles
    | DetachesAll(order: seq<TabId>, stuck: set<TabId>)
    | BrowserDetaches(tab: TabId)                        // the user, or a closing tab: a notification is queued
    | OthersAttach(tab: TabId, target: string)
    | OthersDetach(tab: TabId)                           // not this extension's debugger: it is not told

  predicate Enabled(s: State, input: Input) {
    match input
    case Ensures(_, luck) => luck.target != ""
    case Attaches(_, luck) => luck.target != ""
    case Looks(_, luck) => luck.target != ""
    case Registers(sighting) => sighting in s.sightings
    case Handles => s.notices != []
    case BrowserDetaches(tab) => tab in s.own
    case OthersAttach(_, target) => target != ""
    case _ => true
  }

  function NoteSight(s: State, tab: TabId, sight: Sight): State {
    if sight.Seen? then s.(sightings := s.sightings + multiset{Sighting(tab, sight.targetId)}) else s
  }

  function Step(s: State, input: Input): State
    requires Enabled(s, input)
  {
    match input
    case Ensures(tab, luck) => EnsureAttached(s, tab, luck).0
    case Attaches(tab, luck) => Attach(s, tab, luck).0
    case Looks(tab, luck) => NoteSight(Look(s, tab, luck).0, tab, Look(s, tab, luck).1)
    case Registers(sighting) =>
      Register(s.(sightings := s.sightings - multiset{sighting}), sighting.tab, sighting.targetId)
    case Detaches(tab, should, sent, detached) => Detach(s, tab, should, sent, detached)
    case Handles => HandleNotice(s)
    case DetachesAll(order, stuck) => DetachAll(s, order, stuck)
    case BrowserDetaches(tab) => s.(own := s.own - {tab}, notices := s.notices + [tab])
    case OthersAttach(tab, target) => s.(foreign := s.foreign[tab := target])
    case OthersDetach(tab) => s.(foreign := s.foreign - {tab})
  }
}

/** What holds of the registry in every reachable state. */
module TabRuns {
  import opened TabState

  /** The registry's entry is attached with that target, or its removal is on the way. */
  ghost predicate EntrySound(s: State, tab: TabId)
    requires tab in s.tabs
  {
    (tab in s.own && s.own[tab] == s.tabs[tab]) || tab in s.notices
  }

  ghost predicate Sound(s: State) { forall tab :: tab in s.tabs ==> EntrySound(s, tab) }

  /** No target id is empty. */
  ghost predicate Named(s: State) {
    && (forall tab :: tab in s.tabs ==> s.tabs[tab] != "")
    && (forall tab :: tab in s.own ==> s.own[tab] != "")
    && (forall tab :: tab in s.foreign ==> s.foreign[tab] != "")
    && (forall seen :: seen in s.sightings ==> seen.targetId != "")
  }

  /** `ensureAttached` takes over an attachment that is another debugger's. */
  predicate TakesOverForeign(s: State, input: Input) {
    && input.Ensures? && input.luck.targetsListed
    && !Tracked(s, input.tab) && input.tab !in s.own && input.tab in s.foreign && input.tab !in s.notices
  }

  /** A target is registered that this extension is not attached to, be it that the notice of its detaching
      was handled while the operation was under way, or that it never was. */
  predicate RegistersUnattached(s: State, input: Input) {
    && input.Registers?
    && var seen := input.sighting;
       !(seen.tab in s.own && s.own[seen.tab] == seen.targetId) && seen.tab !in s.notices
  }

  /** `detachAll` asks the browser for every tab given, and detaches all but the stuck ones. */
  lemma {:induction false} DetachEachKeeps(s: State, order: seq<TabId>, stuck: set<TabId>)
    ensures var s' := DetachEach(s, order, stuck);
            && s'.tabs == s.tabs && s'.foreign == s.foreign && s'.notices == s.notices && s'.sightings == s.sightings
            && (forall tab :: tab in s'.own <==> tab in s.own && (tab in order ==> tab in stuck))
            && (forall tab :: tab in s'.own ==> s'.own[tab] == s.own[tab])
            && |s'.calls| == |s.calls| + |order|
    decreases |order|
  {
    if order != [] {
      var asked := Called(s, DetachFrom(order[0]));
      DetachEachKeeps(if order[0] in stuck then asked else asked.(own := asked.own - {order[0]}), order[1..], stuck);
      assert forall tab :: tab in order <==> tab == order[0] || tab in order[1..];
    }
  }

  /** A sight, if any, is of a named target. */
  predicate NamedSight(sight: Sight) { !sight.Failure? ==> sight.targetId != "" }

  lemma AttachNamed(s: State, tab: TabId, luck: Luck)
    requires Named(s) && luck.target != ""
    ensures Named(AttachAndLook(s, tab, luck).0) && NamedSight(AttachAndLook(s, tab, luck).1)
    ensures Named(Attach(s, tab, luck).0)
  {
  }

  lemma LookNamed(s: State, tab: TabId, luck: Luck)
    requires Named(s) && luck.target != ""
    ensures Named(Look(s, tab, luck).0) && NamedSight(Look(s, tab, luck).1)
  {
    if !Tracked(s, tab) && luck.targetsListed && Listed(s, tab).None? {
      AttachNamed(Called(s, GetTargets), tab, luck);
    }
  }

  lemma EnsureNamed(s: State, tab: TabId, luck: Luck)
    requires Named(s) && luck.target != ""
    ensures Named(EnsureAttached(s, tab, luck).0)
  {
    LookNamed(s, tab, luck);
  }

  lemma StepNamed(s: State, input: Input)
    requires Named(s) && Enabled(s, input)
    ensures Named(Step(s, input))
  {
    match input
    case Ensures(tab, luck) => EnsureNamed(s, tab, luck);
    case Attaches(tab, luck) => AttachNamed(s, tab, luck);
    case Looks(tab, luck) => LookNamed(s, tab, luck);
    case Registers(_) =>
    case DetachesAll(order, stuck) => DetachEachKeeps(s, order, stuck);
    case Detaches(_, _, _, _) =>
    case Handles =>
    case BrowserDetaches(_) =>
    case OthersAttach(_, _) =>
    case OthersDetach(_) =>
  }

  /** Entries that are as before, or sound on their own, make a sound registry. */
  lemma StillSound(s: State, s': State)
    requires Sound(s) && (forall t :: t in s.notices ==> t in s'.notices)
    requires forall t :: t in s'.tabs ==>
               EntrySound(s', t) ||
               (t in s.tabs && s'.tabs[t] == s.tabs[t] && (t in s.own ==> t in s'.own && s'.own[t] == s.own[t]))
    ensures Sound(s')
  {
    forall t | t in s'.tabs
      ensures EntrySound(s', t)
    {
      assert t in s.tabs ==> EntrySound(s, t);
    }
  }

  lemma AttachSound(s: State, tab: TabId, luck: Luck)
    requires Sound(s)
    ensures Sound(Attach(s, tab, luck).0)
  {
    StillSound(s, Attach(s, tab, luck).0);
  }

  lemma EnsureSound(s: State, tab: TabId, luck: Luck)
    requires Sound(s)
    ensures Sound(EnsureAttached(s, tab, luck).0) <==> !TakesOverForeign(s, Ensures(tab, luck))
  {
    var s' := EnsureAttached(s, tab, luck).0;
    if TakesOverForeign(s, Ensures(tab, luck)) {
      assert !EntrySound(s', tab);
    } else if Tracked(s, tab) {
      assert s' == s;
    } else if luck.targetsListed && Listed(s, tab).None? {
      StillSound(s, Called(s, GetTargets));
      AttachSound(Called(s, GetTargets), tab, luck);
    } else {
      StillSound(s, s');
    }
  }

  lemma LookSound(s: State, tab: TabId, luck: Luck)
    requires Sound(s) && luck.target != ""
    ensures Sound(Step(s, Looks(tab, luck)))
  {
    StillSound(s, Step(s, Looks(tab, luck)));
  }

  lemma RegisterSound(s: State, seen: Sighting)
    requires Sound(s) && seen in s.sightings
    ensures Sound(Step(s, Registers(seen))) <==> !RegistersUnattached(s, Registers(seen))
  {
    var s' := Step(s, Registers(seen));
    assert seen.tab in s'.tabs;
    if RegistersUnattached(s, Registers(seen)) {
      assert !EntrySound(s', seen.tab);
    } else {
      StillSound(s, s');
    }
  }

  lemma HandleSound(s: State)
    requires Sound(s) && Named(s) && s.notices != []
    ensures Sound(HandleNotice(s))
  {
    var s' := HandleNotice(s);
    assert s.notices == [s.notices[0]] + s.notices[1..];
    forall t | t in s'.tabs
      ensures EntrySound(s', t)
    {
      assert EntrySound(s, t) && t != s.notices[0];
    }
  }

  /** A step keeps the registry sound exactly when it neither takes over another debugger's attachment (when
      that one detaches, this extension is not told) nor registers a target seen
      earlier that this extension is not attached to, with no notice queued. */
  lemma StepSound(s: State, input: Input)
    requires Sound(s) && Named(s) && Enabled(s, input)
    ensures Sound(Step(s, input)) <==> !TakesOverForeign(s, input) && !RegistersUnattached(s, input)
  {
    match input
    case Ensures(tab, luck) => EnsureSound(s, tab, luck);
    case Attaches(tab, luck) => AttachSound(s, tab, luck);
    case Looks(tab, luck) => LookSound(s, tab, luck);
    case Registers(seen) => RegisterSound(s, seen);
    case Handles => HandleSound(s);
    case BrowserDetaches(tab) =>
      assert Step(s, input).notices[|s.notices|] == tab;
      StillSound(s, Step(s, input));
    case Detaches(tab, _, _, _) => StillSound(s, Step(s, input));
    case DetachesAll(_, _) =>
    case OthersAttach(_, _) => StillSound(s, Step(s, input));
    case OthersDetach(_) => StillSound(s, Step(s, input));
  }

  ghost predicate IsRun(states: seq<State>, inputs: seq<Input>) {
    && |states| == |inputs| + 1
    && states[0] == INIT
    && forall i {:trigger inputs[i]} :: 0 <= i < |inputs| ==>
         Enabled(states[i], inputs[i]) && states[i + 1] == Step(states[i], inputs[i])
  }

  /** Over every run without such a takeover or late registration, whatever fails half-way and however late the notifications
      are handled, every registry entry is attached with its target or about to be removed. */
  lemma {:induction false} RegistryIsSound(states: seq<State>, inputs: seq<Input>, n: nat)
    requires IsRun(states, inputs) && n < |states|
    requires forall i :: 0 <= i < n ==> !TakesOverForeign(states[i], inputs[i]) && !RegistersUnattached(states[i], inputs[i])
    ensures Sound(states[n]) && Named(states[n])
  {
    if n > 0 {
      RegistryIsSound(states, inputs, n - 1);
      NextIsSound(states, inputs, n - 1);
    }
  }

  lemma NextIsSound(states: seq<State>, inputs: seq<Input>, n: nat)
    requires IsRun(states, inputs) && n < |inputs| && Sound(states[n]) && Named(states[n])
    requires !TakesOverForeign(states[n], inputs[n]) && !RegistersUnattached(states[n], inputs[n])
    ensures Sound(states[n + 1]) && Named(states[n + 1])
  {
    assert Enabled(states[n], inputs[n]);
    StepSound(states[n], inputs[n]);
    StepNamed(states[n], inputs[n]);
  }

  /** The takeover does happen, and leaves an entry that nothing is attached to and no notice will remove. */
  lemma TakeoverLeavesStaleEntry()
    returns (states: seq<State>, inputs: seq<Input>)
    ensures IsRun(states, inputs) && |inputs| == 3
    ensures states[3].tabs == map[7 := "t"] && states[3].own == map[]
    ensures states[3].foreign == map[] && states[3].notices == []
  {
    var luck := Luck(true, true, Found, Sent, "t");
    inputs := [OthersAttach(7, "t"), Ensures(7, luck), OthersDetach(7)];
    var s1 := Step(INIT, inputs[0]);
    var s2 := Step(s1, inputs[1]);
    states := [INIT, s1, s2, Step(s2, inputs[2])];
  }

  /** So does the late registration: the browser detaches, and the notice is handled, between the lookup of
      `ensureAttached` and its registering. */
  lemma LateRegistrationLeavesStaleEntry()
    returns (states: seq<State>, inputs: seq<Input>)
    ensures IsRun(states, inputs) && |inputs| == 4
    ensures inputs[1] == BrowserDetaches(7) && inputs[2] == Handles && inputs[3].Registers?
    ensures states[4].tabs == map[7 := "t"] && states[4].own == map[]
    ensures states[4].foreign == map[] && states[4].notices == [] && states[4].sightings == multiset{}
  {
    inputs := [Looks(7, Luck(true, true, Found, Sent, "t")), BrowserDetaches(7), Handles, Registers(Sighting(7, "t"))];
    var calls := [GetTargets, AttachTo(7), TargetInfoOf(7)];
    var seen := multiset{Sighting(7, "t")};
    var s1 := State(map[], map[7 := "t"], map[], [], seen, calls);
    var s2 := State(map[], map[], map[], [7], seen, calls);
    var s3 := State(map[], map[], map[], [], seen, calls);
    var s4 := State(map[7 := "t"], map[], map[], [], multiset{}, calls);
    assert s1 == Step(INIT, inputs[0]);
    assert s2 == Step(s1, inputs[1]);
    assert s3 == Step(s2, inputs[2]);
    assert s4 == Step(s3, inputs[3]);
    states := [INIT, s1, s2, s3, s4];
  }

  // ---- what each step leaves alone ----

  /** The input is about this tab, by a call or by the oldest notice. */
  predicate IsAbout(s: State, input: Input, tab: TabId)
    requires Enabled(s, input)
  {
    match input
    case Ensures(t, _) => t == tab
    case Attaches(t, _) => t == tab
    case Looks(t, _) => t == tab
    case Registers(seen) => seen.tab == tab
    case Detaches(t, _, _, _) => t == tab
    case Handles => s.notices[0] == tab
    case DetachesAll(_, _) => true
    case BrowserDetaches(t) => t == tab
    case OthersAttach(t, _) => t == tab
    case OthersDetach(t) => t == tab
  }

  /** Entry, attachments and sightings of the tab are as before. */
  ghost predicate TabKept(s: State, s': State, tab: TabId) {
    && (tab in s'.tabs <==> tab in s.tabs) && (tab in s.tabs ==> s'.tabs[tab] == s.tabs[tab])
    && (tab in s'.own <==> tab in s.own) && (tab in s.own ==> s'.own[tab] == s.own[tab])
    && (tab in s'.foreign <==> tab in s.foreign) && (tab in s.foreign ==> s'.foreign[tab] == s.foreign[tab])
    && forall seen: Sighting :: seen.tab == tab ==> s'.sightings[seen] == s.sightings[seen]
  }

  lemma AttachKeepsOthers(s: State, tab: TabId, luck: Luck, other: TabId)
    requires other != tab
    ensures TabKept(s, AttachAndLook(s, tab, luck).0, other)
  {
  }

  lemma LookKeepsOthers(s: State, tab: TabId, luck: Luck, other: TabId)
    requires other != tab
    ensures TabKept(s, Look(s, tab, luck).0, other)
  {
    AttachKeepsOthers(Called(s, GetTargets), tab, luck, other);
  }

  lemma ConcludeKeepsOthers(s: State, tab: TabId, sight: Sight, delivery: Delivery, other: TabId)
    requires other != tab
    ensures TabKept(s, Conclude(s, tab, sight, delivery).0, other) && TabKept(s, NoteSight(s, tab, sight), other)
  {
  }

  /** A step about other tabs leaves this one alone. */
  lemma OthersAreKept(s: State, input: Input, tab: TabId)
    requires Enabled(s, input) && !IsAbout(s, input, tab)
    ensures TabKept(s, Step(s, input), tab)
  {
    match input
    case Ensures(t, luck) =>
      LookKeepsOthers(s, t, luck, tab);
      ConcludeKeepsOthers(Look(s, t, luck).0, t, Look(s, t, luck).1, luck.delivery, tab);
    case Attaches(t, luck) =>
      AttachKeepsOthers(s, t, luck, tab);
      ConcludeKeepsOthers(AttachAndLook(s, t, luck).0, t, AttachAndLook(s, t, luck).1, luck.delivery, tab);
    case Looks(t, luck) =>
      LookKeepsOthers(s, t, luck, tab);
      ConcludeKeepsOthers(Look(s, t, luck).0, t, Look(s, t, luck).1, luck.delivery, tab);
    case Registers(_) =>
    case Detaches(_, _, _, _) =>
    case Handles =>
    case BrowserDetaches(_) =>
    case OthersAttach(_, _) =>
    case OthersDetach(_) =>
  }

  /** A notice, when handled, takes away its tab's entry and nothing else. */
  lemma NoticeRemovesItsTab(s: State)
    requires s.notices != []
    ensures var s', tab := HandleNotice(s), s.notices[0];
            && s'.notices == s.notices[1..]
            && s'.own == s.own && s'.foreign == s.foreign && s'.sightings == s.sightings && s'.calls == s.calls
            && s'.tabs == if tab in s.tabs && s.tabs[tab] != "" then s.tabs - {tab} else s.tabs
  {
  }

  /** `detach` takes the entry away if the relay could be told, and the attachment if asked to and the browser
      complies. */
  lemma DetachRemovesItsTab(s: State, tab: TabId, should: bool, sent: bool, detached: bool)
    ensures var s' := Detach(s, tab, should, sent, detached);
            var known := tab in s.tabs && s.tabs[tab] != "";
            && s'.tabs == (if known && sent then s.tabs - {tab} else s.tabs)
            && s'.own == (if known && sent && should && detached then s.own - {tab} else s.own)
            && s'.foreign == s.foreign && s'.notices == s.notices && s'.sightings == s.sightings
            && s'.calls == s.calls + (if known && sent && should then [DetachFrom(tab)] else [])
  {
  }

  /** `detachAll` empties the registry. */
  lemma DetachAllEmpties(s: State, order: seq<TabId>, stuck: set<TabId>)
    ensures var s' := DetachAll(s, order, stuck);
            && s'.tabs == map[] && s'.foreign == s.foreign && s'.notices == s.notices && s'.sightings == s.sightings
            && forall tab :: tab in s'.own <==> tab in s.own && (tab in order ==> tab in stuck)
  {
    DetachEachKeeps(s, order, stuck);
  }

  /** A target seen is registered, whatever was there, and nothing else changes. */
  lemma RegisterSetsItsTab(s: State, seen: Sighting)
    requires seen in s.sightings
    ensures var s' := Step(s, Registers(seen));
            && s'.tabs == s.tabs[seen.tab := seen.targetId] && s'.sightings == s.sightings - multiset{seen}
            && s'.own == s.own && s'.foreign == s.foreign && s'.notices == s.notices && s'.calls == s.calls
  {
  }

  /** What may end or replace the entry of a tab: its own detach, the handling of a notice for it, `detachAll`, an
      explicit attach, or a registration that was under way. */
  predicate MayReplace(s: State, input: Input, tab: TabId)
    requires Enabled(s, input)
  {
    match input
    case Detaches(t, _, sent, _) => t == tab && sent
    case Handles => s.notices[0] == tab
    case DetachesAll(_, _) => true
    case Attaches(t, _) => t == tab
    case Registers(seen) => seen.tab == tab
    case _ => false
  }

  lemma StepKeepsEntry(s: State, input: Input, tab: TabId)
    requires Enabled(s, input) && Named(s) && tab in s.tabs && !MayReplace(s, input, tab)
    ensures tab in Step(s, input).tabs && Step(s, input).tabs[tab] == s.tabs[tab]
  {
    if !IsAbout(s, input, tab) {
      OthersAreKept(s, input, tab);
    }
  }

  predicate Replaced(s: State, input: Input, tab: TabId) { Enabled(s, input) && MayReplace(s, input, tab) }

  ghost predicate EntryStays(s: State, s': State, tab: TabId) {
    tab in s.tabs ==> tab in s'.tabs && s'.tabs[tab] == s.tabs[tab]
  }

  lemma NextKeepsEntry(states: seq<State>, inputs: seq<Input>, n: nat, tab: TabId)
    requires IsRun(states, inputs) && n < |inputs| && !Replaced(states[n], inputs[n], tab)
    ensures EntryStays(states[n], states[n + 1], tab)
  {
    RunNamed(states, inputs, n);
    assert Enabled(states[n], inputs[n]);
    if tab in states[n].tabs {
      StepKeepsEntry(states[n], inputs[n], tab);
    }
  }

  lemma {:induction false} EntryStaysOn(states: seq<State>, n: nat, m: nat, tab: TabId)
    requires n <= m < |states| && forall i :: n <= i < m ==> EntryStays(states[i], states[i + 1], tab)
    ensures EntryStays(states[n], states[m], tab)
    decreases m
  {
    if n < m {
      EntryStaysOn(states, n, m - 1, tab);
      assert EntryStays(states[m - 1], states[m - 1 + 1], tab);
    }
  }

  /** Nothing else does: over every run, a registered tab stays registered with its target until then. */
  lemma RegistrationLasts(states: seq<State>, inputs: seq<Input>, n: nat, m: nat, tab: TabId)
    requires IsRun(states, inputs) && n <= m < |states| && tab in states[n].tabs
    requires forall i :: n <= i < m ==> !Replaced(states[i], inputs[i], tab)
    ensures tab in states[m].tabs && states[m].tabs[tab] == states[n].tabs[tab]
  {
    forall i | n <= i < m
      ensures EntryStays(states[i], states[i + 1], tab)
    {
      NextKeepsEntry(states, inputs, i, tab);
    }
    EntryStaysOn(states, n, m, tab);
  }

  lemma {:induction false} RunNamed(states: seq<State>, inputs: seq<Input>, n: nat)
    requires IsRun(states, inputs) && n < |states|
    ensures Named(states[n])
  {
    if n > 0 {
      RunNamed(states, inputs, n - 1);
      StepNamed(states[n - 1], inputs[n - 1]);
    }
  }

  /** An attach that works leaves the tab attached and registered with its target, whether or not the relay could
      be told; one that fails before registers nothing. */
  lemma AttachSpelledOut(s: State, tab: TabId, luck: Luck)
    ensures var (s', r) := Attach(s, tab, luck);
            var attached := luck.attached && tab !in s.own;
            && s'.own == (if attached then s.own[tab := luck.target] else s.own)
            && s'.tabs == (if attached && luck.lookup.Found? then s.tabs[tab := luck.target] else s.tabs)
            && s'.calls == s.calls + [AttachTo(tab)] + (if attached then [TargetInfoOf(tab)] else [])
            && r == (if !attached then Err("DEBUGGER_ATTACH_FAILED")
                     else if luck.lookup.LookupFails? then Err("TARGET_INFO_LOOKUP_FAILED")
                     else if luck.lookup.NoTargetId? then Err("INVALID_TARGET_INFO")
                     else if luck.delivery.Sent? then Ok(luck.target)
                     else if luck.delivery.NotOpen? then Err("RELAY_NOT_CONNECTED")
                     else Err("WS_SEND_FAILED"))
  {
  }

  // ---- one operation after another ----

  /** A successful `ensureAttached` leaves its target registered, and asking again answers the same
      without a single call into the browser, whatever the browser would do. */
  lemma EnsureIsIdempotent(s: State, tab: TabId, luck: Luck, again: Luck)
    requires Named(s) && luck.target != "" && EnsureAttached(s, tab, luck).1.Ok?
    ensures var (s', r) := EnsureAttached(s, tab, luck);
            tab in s'.tabs && s'.tabs[tab] == r.targetId && EnsureAttached(s', tab, again) == (s', r)
  {
  }

  /** An attach whose lookup failed is recovered by the next `ensureAttached`: the target is registered
      with one look at the target list, and the debugger is not attached again. */
  lemma FailedLookupIsRecovered(s: State, tab: TabId, luck: Luck, next: Luck)
    requires Named(s) && luck.target != "" && luck.attached && !luck.lookup.Found?
    requires tab !in s.tabs && tab !in s.own && next.targetsListed
    ensures var (s', r) := Attach(s, tab, luck);
            && r.Err? && s'.tabs == s.tabs
            && var (s'', r') := EnsureAttached(s', tab, next);
               && s''.calls == s'.calls + [GetTargets]
               && s''.tabs == s.tabs[tab := luck.target] && s''.own == s'.own
               && r' == Told(next.delivery, luck.target)
  {
  }

  /** The debugger is attached only to a tab that is neither registered nor listed as attached. */
  lemma AttachesOnlyWhenNeeded(s: State, tab: TabId, luck: Luck)
    ensures var (s', _) := EnsureAttached(s, tab, luck);
            s.calls <= s'.calls &&
            (AttachTo(tab) in s'.calls[|s.calls|..] <==>
               !Tracked(s, tab) && luck.targetsListed && tab !in s.own && tab !in s.foreign)
  {
    var s' := EnsureAttached(s, tab, luck).0;
    var asked := Called(s, GetTargets);
    assert asked.calls[|s.calls|..] == [GetTargets];
    if !Tracked(s, tab) && luck.targetsListed && Listed(s, tab).None? {
      assert s'.calls[|s.calls| + 1] == AttachTo(tab);
      assert s'.calls[|s.calls|..][1] == AttachTo(tab);
    }
  }

  /** A failed operation leaves the registry as it was, exactly unless all went well up to telling the
      relay; then the tab is registered with the target it is attached to, though the caller got an error. */
  lemma FailureKeepsRegistry(s: State, tab: TabId, luck: Luck)
    requires EnsureAttached(s, tab, luck).1.Err?
    ensures var (s', r) := EnsureAttached(s, tab, luck);
            var unheard := r.code == "RELAY_NOT_CONNECTED" || r.code == "WS_SEND_FAILED";
            && (unheard ==> !luck.delivery.Sent? && Listed(s', tab).Some? && s'.tabs == s.tabs[tab := Listed(s', tab).value])
            && (!unheard ==> s'.tabs == s.tabs)
            && (Listed(s, tab).Some? && luck.targetsListed ==> unheard)
  {
  }
}
