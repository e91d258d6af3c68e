/** The tab registry as a program: the registry's map, updated by its operations, and the browser behind it. */
module TabRegistry {
  import opened JsTable
  import opened TabState
  import TabRuns

  class TabRegistry {
    var tabsRef: Table<TabId, string>

    // the browser
    var own: map<TabId, string>
    var foreign: map<TabId, string>
    var notices: seq<TabId>
    var sightings: multiset<Sighting>
    var calls: seq<Call>

    ghost function Abs(): State
      reads this
    {
      State(tabsRef.vals, own, foreign, notices, sightings, calls)
    }

    ghost predicate Valid()
      reads this
    {
      tabsRef.Valid() && TabRuns.Named(Abs())
    }

    constructor ()
      ensures Valid() && Abs() == INIT
    {
      tabsRef, own, foreign, notices, sightings, calls := Table([], map[]), map[], map[], [], multiset{}, [];
    }

    method SetTargetId(tab: TabId, targetId: string)
      requires tabsRef.Valid()
      modifies this`tabsRef
      ensures tabsRef.Valid() && tabsRef.vals == old(tabsRef).vals[tab := targetId]
    {
      tabsRef := tabsRef.Put(tab, targetId);
    }

    method DeleteTab(tab: TabId)
      requires tabsRef.Valid()
      modifies this`tabsRef
      ensures tabsRef.Valid() && tabsRef.vals == old(tabsRef).vals - {tab}
    {
      DropValid(tabsRef, tab);
      tabsRef := tabsRef.Drop(tab);
    }

    /** The relay is told of the attachment; a failure makes the whole operation fail. */
    method Send(delivery: Delivery, targetId: string) returns (r: Result)
      ensures r.Ok? <==> delivery.Sent?
      ensures r == Told(delivery, targetId)
    {
      if delivery.NotOpen? {
        return Err("RELAY_NOT_CONNECTED");
      }
      if delivery.SendThrows? {
        return Err("WS_SEND_FAILED");
      }
      return Ok(targetId);
    }

    /** `attach`, up to its lookup. */
    method AttachDebugger(tab: TabId, luck: Luck) returns (sight: Sight)
      requires Valid() && luck.target != ""
      modifies this
      ensures Valid() && TabRuns.NamedSight(sight) && (Abs(), sight) == AttachAndLook(old(Abs()), tab, luck)
    {
      TabRuns.AttachNamed(Abs(), tab, luck);
      calls := calls + [AttachTo(tab)];
      if !luck.attached || tab in own {
        return Failure("DEBUGGER_ATTACH_FAILED");
      }
      own := own[tab := luck.target];
      calls := calls + [TargetInfoOf(tab)];
      if luck.lookup.LookupFails? {
        return Failure("TARGET_INFO_LOOKUP_FAILED");
      }
      if luck.lookup.NoTargetId? {
        return Failure("INVALID_TARGET_INFO");
      }
      return Seen(luck.target);
    }

    /** `ensureAttached`, up to what it registers. */
    method LookUp(tab: TabId, luck: Luck) returns (sight: Sight)
      requires Valid() && luck.target != ""
      modifies this
      ensures Valid() && TabRuns.NamedSight(sight) && (Abs(), sight) == Look(old(Abs()), tab, luck)
    {
      if tab in tabsRef.vals && tabsRef.vals[tab] != "" {
        return Known(tabsRef.vals[tab]);
      }
      calls := calls + [GetTargets];
      if !luck.targetsListed {
        return Failure("GET_TARGETS_FAILED");
      }
      if tab in own || tab in foreign {
        return Seen(if tab in own then own[tab] else foreign[tab]);
      }
      sight := AttachDebugger(tab, luck);
    }

    /** The rest of either operation: a target seen is registered, and the relay is told of it. */
    method RegisterSeen(tab: TabId, sight: Sight, delivery: Delivery) returns (r: Result)
      requires Valid() && TabRuns.NamedSight(sight)
      modifies this`tabsRef
      ensures Valid() && (Abs(), r) == Conclude(old(Abs()), tab, sight, delivery)
    {
      match sight
      case Known(targetId) => return Ok(targetId);
      case Failure(code) => return Err(code);
      case Seen(targetId) =>
        SetTargetId(tab, targetId);
        r := Send(delivery, targetId);
    }

    method Attach(tab: TabId, luck: Luck) returns (r: Result)
      requires Valid() && luck.target != ""
      modifies this
      ensures Valid() && (Abs(), r) == TabState.Attach(old(Abs()), tab, luck)
    {
      var sight := AttachDebugger(tab, luck);
      r := RegisterSeen(tab, sight, luck.delivery);
    }

    /** `ensureAttached`, when nothing happens during its awaits. */
    method Ensure(tab: TabId, luck: Luck) returns (r: Result)
      requires Valid() && luck.target != ""
      modifies this
      ensures Valid() && (Abs(), r) == EnsureAttached(old(Abs()), tab, luck)
    {
      var sight := LookUp(tab, luck);
      r := RegisterSeen(tab, sight, luck.delivery);
    }

    /** `ensureAttached` gives way to other steps before it registers what it saw. */
    method StartEnsure(tab: TabId, luck: Luck) returns (sight: Sight)
      requires Valid() && luck.target != ""
      modifies this
      ensures Valid() && Abs() == Step(old(Abs()), Looks(tab, luck)) && sight == Look(old(Abs()), tab, luck).1
    {
      sight := LookUp(tab, luck);
      if sight.Seen? {
        sightings := sightings + multiset{Sighting(tab, sight.targetId)};
      }
    }

    method FinishEnsure(seen: Sighting, delivery: Delivery) returns (r: Result)
      requires Valid() && seen in sightings
      modifies this
      ensures Valid() && Abs() == Step(old(Abs()), Registers(seen)) && r == Told(delivery, seen.targetId)
    {
      sightings := sightings - multiset{seen};
      r := RegisterSeen(seen.tab, Seen(seen.targetId), delivery);
    }

    method DetachTab(tab: TabId, shouldDetachDebugger: bool, sent: bool, detached: bool)
      requires Valid()
      modifies this
      ensures Valid() && Abs() == Detach(old(Abs()), tab, shouldDetachDebugger, sent, detached)
    {
      if tab !in tabsRef.vals || tabsRef.vals[tab] == "" || !sent {
        return;
      }
      DeleteTab(tab);
      if shouldDetachDebugger {
        calls := calls + [DetachFrom(tab)];
        if detached {
          own := own - {tab};
        }
      }
    }

    /** The oldest detach notification reaches `handleDebuggerDetach`. */
    method HandleDebuggerDetach()
      requires Valid() && notices != []
      modifies this
      ensures Valid() && Abs() == HandleNotice(old(Abs()))
    {
      var tab := notices[0];
      notices := notices[1..];
      if tab !in tabsRef.vals || tabsRef.vals[tab] == "" {
        return;
      }
      DeleteTab(tab);
    }

    /** Detaches from every registered tab, then empties the registry whatever failed. */
    method DetachAllTabs(stuck: set<TabId>)
      requires Valid()
      modifies this
      ensures Valid() && Abs() == DetachAll(old(Abs()), old(tabsRef).keys, stuck)
    {
      var keys := tabsRef.keys;
      for n := 0 to |keys|
        invariant Valid() && tabsRef == old(tabsRef)
        invariant DetachEach(Abs(), keys[n..], stuck) == DetachEach(old(Abs()), keys, stuck)
      {
        assert keys[n..][0] == keys[n] && keys[n..][1..] == keys[n + 1..];
        calls := calls + [DetachFrom(keys[n])];
        if keys[n] !in stuck {
          own := own - {keys[n]};
        }
      }
      tabsRef := Table([], map[]);
    }
  }
}
