/**
 * The background worker of the tab-grouping extension: the module-level state
 * of background.js as one `Engine` object, one method per event handler,
 * alarm branch and message. Each handler runs atomically between its awaits;
 * `groupInactiveTabs` and `processUngroupQueue` are split at their first
 * await, so that other handlers (a second request, the 30-second timeout, a
 * reset) can run while a pass is in flight and meet the guard flags.
 */
module Background {
  import opened Platform
  import opened TabTable
  import opened Selection
  import opened ReleaseQueue

  /** The auto checker starts the countdown at this many countable tabs. */
  const StartThreshold: int := 10

  /** `stored.minutes || 30` and `msg.minutes || currentMinutes || 30`. */
  const DefaultMinutes: int := 30

  datatype Alarm = InactiveTimer | AutoChecker | CleanupStates | UngroupProcessor

  /** The alarms created by install and startup. */
  const PeriodicAlarms: set<Alarm> := {AutoChecker, CleanupStates, UngroupProcessor}

  datatype ErrorCause = AlreadyInProgress | TimedOut | PlatformFailure(call: PlatformCall)

  /** The messages `notifyPopup` broadcasts. */
  datatype Event =
    | TimerStarted(minutes: int)
    | NotEnoughTabs(required: int)
    | GroupingStarted
    | GroupingComplete(grouped: int)
    | Stopped
    | Error(cause: ErrorCause)

  /** Which platform call of a grouping pass rejects, if any. */
  datatype Fault = NoFault | FailAt(call: PlatformCall)

  /** The reply to GET_STATUS. */
  datatype Status = Status(isRunning: bool, currentMinutes: int, autoGroup: bool, endTime: Option<int>)

  /** The `changeInfo` of `chrome.tabs.onUpdated`; `active` is None when the key is absent. */
  datatype Change = Change(statusComplete: bool, urlChanged: bool, active: Option<bool>)

  /**
   * `data.inactiveGroupId || null`: a missing key and the falsy id 0 both
   * read back as no group; any other stored id reads back as itself.
   */
  function Stored(stored: Option<int>): (r: Option<int>)
    ensures r.Some? <==> stored.Some? && stored.value != 0
    ensures r.Some? ==> r == stored
  {
    if stored.Some? && stored.value != 0 then stored else None
  }

  /** The result of `validateGroupId(g)`. */
  function Validated(g: Option<int>, groups: map<int, Group>): (r: Option<int>)
    ensures r.Some? <==> g.Some? && g.value != 0 && IsHolding(groups, g.value)
    ensures r.Some? ==> r == g
  {
    if g.Some? && g.value != 0 && IsHolding(groups, g.value) then g else None
  }

  /** What storage holds after `validateGroupId(getInactiveGroupId())`. */
  function StorageAfterValidate(stored: Option<int>, groups: map<int, Group>): (r: Option<int>)
    ensures r == stored || r.None?
    ensures r.None? <==> stored.None? || (Stored(stored).Some? && Validated(Stored(stored), groups).None?)
  {
    if Stored(stored).Some? && !IsHolding(groups, stored.value) then None else stored
  }

  /** Whether an auto-checker tick starts the countdown (line 466). */
  predicate StartsOnTick(running: bool, n: int)
  {
    !running && n >= StartThreshold
  }

  /**
   * `isRunning` after an auto-checker tick that counted `n` tabs with floor
   * `need`: the countdown runs when it already ran or `n` reached the start
   * threshold, unless `n` is below the stop threshold `need` (line 470).
   */
  function RunningAfterTick(running: bool, n: int, need: int): (r: bool)
    ensures n >= StartThreshold && n >= need ==> r
    ensures n < need ==> !r
    ensures need <= n < StartThreshold ==> r == running
  {
    var started := running || StartsOnTick(running, n);
    started && !(n < need)
  }

  /** A population of 12, then 9, then 4 with the default floor 5: start, keep running, stop. */
  lemma HysteresisExample()
    ensures RunningAfterTick(false, 12, DefaultMinGroupTabs)
    ensures RunningAfterTick(RunningAfterTick(false, 12, DefaultMinGroupTabs), 9, DefaultMinGroupTabs)
    ensures !RunningAfterTick(RunningAfterTick(RunningAfterTick(false, 12, DefaultMinGroupTabs), 9, DefaultMinGroupTabs), 4, DefaultMinGroupTabs)
  {
  }

  /** The loop at lines 99-109: the tabs whose window lookup says "normal", in order. */
  method CollectNormalTabs(tabs: seq<Tab>) returns (normal: seq<Tab>)
    ensures normal == NormalTabs(tabs)
  {
    normal := [];
    var i := 0;
    while i < |tabs|
      invariant 0 <= i <= |tabs|
      invariant normal + NormalTabs(tabs[i..]) == NormalTabs(tabs)
    {
      assert tabs[i..][0] == tabs[i] && tabs[i..][1..] == tabs[i + 1..];
      if tabs[i].windowIsNormal {
        normal := normal + [tabs[i]];
      }
      i := i + 1;
    }
    assert tabs[i..] == [];
  }

  /** No valid stored id and no group with the reserved title: the pass must create one. */
  predicate MustCreate(stored: Option<int>, groups: map<int, Group>)
  {
    Validated(Stored(stored), groups).None? && !HasHolding(groups)
  }

  /**
   * Destination resolution (lines 148-169): the validated stored id, else a
   * live group with the reserved title (whose id is then stored), else the
   * new group `freshId`, titled and collapsed (whose id is then stored).
   */
  ghost predicate Destination(stored0: Option<int>, groups: map<int, Group>, freshId: int,
                              target: int, stored1: Option<int>, groups1: map<int, Group>)
  {
    var valid := Validated(Stored(stored0), groups);
    && (valid.Some? ==> target == valid.value && groups1 == groups && stored1 == stored0)
    && (valid.None? && HasHolding(groups) ==>
          IsHolding(groups, target) && groups1 == groups && stored1 == Some(target))
    && (MustCreate(stored0, groups) ==>
          target == freshId && stored1 == Some(target) && groups1 == groups[freshId := Group(InactiveTitle, true)])
  }

  /**
   * Lines 144-184, once the floor is met for candidates `cands`: the
   * destination is resolved, the candidates are moved into it and their
   * entries parked; or a platform call rejects and the pass stops there.
   */
  ghost predicate GroupedAs(st0: States, stored0: Option<int>, b: Browser, cands: seq<Tab>, freshId: int, fault: Fault,
                            st1: States, stored1: Option<int>, emitted: seq<Event>, b': Browser, target: Option<int>)
  {
    var creates := MustCreate(stored0, b.groups);
    if creates && (cands == [] || fault == FailAt(CreateGroup)) then
      st1 == st0 && stored1 == StorageAfterValidate(stored0, b.groups) && b' == b && target.None?
      && emitted == [GroupingStarted, Error(PlatformFailure(CreateGroup))]
    else
      && target.Some?
      && Destination(stored0, b.groups, freshId, target.value, stored1, b'.groups)
      && if fault == FailAt(MoveTabs) && |cands| > (if creates then 1 else 0) then
           && st1 == st0
           && emitted == [GroupingStarted, Error(PlatformFailure(MoveTabs))]
           && b'.tabs == (if creates then MoveToGroup(b.tabs, {cands[0].id}, freshId) else b.tabs)
         else
           && st1 == Park(st0, TabIds(cands))
           && emitted == [GroupingStarted, GroupingComplete(|cands|)]
           && b'.tabs == MoveToGroup(b.tabs, TabIds(cands), target.value)
  }

  /**
   * Lines 135-184, once the candidates `cands` are known: fewer than `need`
   * of them stops the pass with NOT_ENOUGH_TABS and no change; otherwise
   * they are grouped.
   */
  ghost predicate FloorOutcome(st0: States, stored0: Option<int>, b: Browser, cands: seq<Tab>, need: int,
                               freshId: int, fault: Fault,
                               st1: States, stored1: Option<int>, emitted: seq<Event>, b': Browser, target: Option<int>)
  {
    if |cands| < need then
      st1 == st0 && stored1 == stored0 && b' == b && target.None?
      && emitted == [NotEnoughTabs(need)]
    else
      GroupedAs(st0, stored0, b, cands, freshId, fault, st1, stored1, emitted, b', target)
  }

  /**
   * The outcome of one grouping pass (lines 95-190) over browser `b`, from
   * table `st0` and stored group id `stored0`, to table `st1`, stored id
   * `stored1`, browser `b'`, the events `emitted` and the destination
   * `target` (None when the pass ended before resolving one).
   */
  ghost predicate PassOutcome(st0: States, stored0: Option<int>, b: Browser, now: int, minutes: int,
                              minSetting: int, freshId: int, fault: Fault,
                              st1: States, stored1: Option<int>, emitted: seq<Event>, b': Browser, target: Option<int>)
  {
    if fault == FailAt(QueryTabs) then
      st1 == st0 && stored1 == stored0 && b' == b && target.None?
      && emitted == [Error(PlatformFailure(QueryTabs))]
    else
      var normal := NormalTabs(b.tabs);
      var st := Resync(st0, normal, now);
      FloorOutcome(st, stored0, b, InactiveTabs(normal, st, now, minutes), MinGroupTabs(minSetting),
                   freshId, fault, st1, stored1, emitted, b', target)
  }

  /** At most one live group carries the reserved title. */
  ghost predicate AtMostOneHolding(groups: map<int, Group>)
  {
    forall g, h :: IsHolding(groups, g) && IsHolding(groups, h) ==> g == h
  }

  class Engine {
    // The module globals of background.js (lines 1-10).
    var endTime: Option<int>
    var currentMinutes: int
    var autoGroup: bool
    /** Declared with `let` but never reassigned. */
    const autoUngroup: bool := true
    var isRunning: bool
    var isGrouping: bool
    var tabStates: States
    var ungroupQueue: Queue
    var isProcessingUngroup: bool

    // Host state the handlers reach through Chrome APIs.
    /** The alarms registered with `chrome.alarms`. */
    var alarms: set<Alarm>
    /** The ids of the 30-second safeguard `setTimeout`s that have neither fired nor been cleared. */
    var pendingTimeouts: set<nat>
    /** The id the next `setTimeout` returns. */
    var nextTimeoutId: nat
    /** `inactiveGroupId` in `chrome.storage.local`. */
    var storedGroupId: Option<int>
    /** Every message `notifyPopup` has sent, oldest first. */
    var events: seq<Event>

    /**
     * A countdown runs exactly when it has an end time, and only while its
     * alarm is registered; the grouping guard is held only while some
     * safeguard timeout is pending; every pending timeout id was issued.
     */
    ghost predicate Valid()
      reads this
    {
      && (isRunning <==> endTime.Some?)
      && (isRunning ==> InactiveTimer in alarms)
      && (isGrouping ==> pendingTimeouts != {})
      && (forall t :: t in pendingTimeouts ==> t < nextTimeoutId)
    }

    /**
     * The worker's module is loaded: globals take their initial values, while
     * the registered alarms and the stored group id survive from before.
     */
    constructor (persistedAlarms: set<Alarm>, persistedGroupId: Option<int>)
      ensures Valid()
      ensures endTime.None? && currentMinutes == 0 && autoGroup && !isRunning && !isGrouping
      ensures tabStates == map[] && ungroupQueue == map[] && !isProcessingUngroup
      ensures alarms == persistedAlarms && pendingTimeouts == {} && storedGroupId == persistedGroupId
      ensures events == []
    {
      endTime := None;
      currentMinutes := 0;
      autoGroup := true;
      isRunning := false;
      isGrouping := false;
      tabStates := map[];
      ungroupQueue := map[];
      isProcessingUngroup := false;
      alarms := persistedAlarms;
      pendingTimeouts := {};
      nextTimeoutId := 1;
      storedGroupId := persistedGroupId;
      events := [];
    }

    /** `notifyPopup`: a best-effort broadcast, recorded in the event log. */
    method Notify(e: Event)
      modifies this`events
      ensures events == old(events) + [e]
    {
      events := events + [e];
    }

    /** `getStatus`: the reply to GET_STATUS. */
    function GetStatus(): (s: Status)
      reads this
      ensures Valid() ==> (s.isRunning <==> s.endTime.Some?)
      ensures s.isRunning == isRunning && s.endTime == endTime
    {
      Status(isRunning, currentMinutes, autoGroup, endTime)
    }

    /** `clearTimer`. */
    method ClearTimer()
      modifies this`alarms, this`isRunning, this`endTime
      ensures alarms == old(alarms) - {InactiveTimer} && !isRunning && endTime.None?
    {
      alarms := alarms - {InactiveTimer};
      isRunning := false;
      endTime := None;
    }

    /** `autoStartTimer(minutes)`: a no-op while a countdown runs. */
    method AutoStartTimer(minutes: int, now: int)
      requires Valid()
      modifies this`alarms, this`isRunning, this`endTime, this`currentMinutes, this`autoGroup, this`events
      ensures Valid()
      ensures old(isRunning) ==> unchanged(this)
      ensures !old(isRunning) ==>
                && isRunning && endTime == Some(now + minutes * 60 * 1000)
                && currentMinutes == minutes && autoGroup
                && alarms == old(alarms) + {InactiveTimer}
                && events == old(events) + [TimerStarted(minutes)]
    {
      if isRunning {
        return;
      }
      ClearTimer();
      currentMinutes := minutes;
      autoGroup := true;
      endTime := Some(now + minutes * 60 * 1000);
      isRunning := true;
      alarms := alarms + {InactiveTimer};
      Notify(TimerStarted(minutes));
    }

    /** `autoStopTimer`, also the STOP message. */
    method AutoStopTimer()
      requires Valid()
      modifies this`alarms, this`isRunning, this`endTime, this`events
      ensures Valid()
      ensures !isRunning && endTime.None? && alarms == old(alarms) - {InactiveTimer}
      ensures events == old(events) + [Stopped]
    {
      ClearTimer();
      Notify(Stopped);
    }

    /**
     * The `autoChecker` alarm branch (lines 435-476): count the normal,
     * unpinned, silent, ungrouped tabs; start the countdown at 10 or more
     * when none runs; stop a running one below the floor `minGroupTabs`.
     * With a floor above 10 a tick can start and stop in one go.
     */
    method AutoCheckerTick(now: int, b: Browser, minutesSetting: int, minSetting: int)
      requires Valid()
      modifies this`alarms, this`isRunning, this`endTime, this`currentMinutes, this`autoGroup, this`events
      ensures Valid()
      ensures var n := |CountableTabs(NormalTabs(b.tabs))|;
              isRunning == RunningAfterTick(old(isRunning), n, MinGroupTabs(minSetting))
      ensures var n := |CountableTabs(NormalTabs(b.tabs))|;
              var need := MinGroupTabs(minSetting);
              var minutes := if minutesSetting != 0 then minutesSetting else DefaultMinutes;
              if StartsOnTick(old(isRunning), n) then
                && currentMinutes == minutes && autoGroup
                && (if n < need
                    then endTime.None? && alarms == old(alarms) - {InactiveTimer}
                         && events == old(events) + [TimerStarted(minutes), Stopped]
                    else endTime == Some(now + minutes * 60 * 1000) && alarms == old(alarms) + {InactiveTimer}
                         && events == old(events) + [TimerStarted(minutes)])
              else if old(isRunning) && n < need then
                && endTime.None? && alarms == old(alarms) - {InactiveTimer}
                && events == old(events) + [Stopped]
                && currentMinutes == old(currentMinutes) && autoGroup == old(autoGroup)
              else unchanged(this)
    {
      var normal := NormalTabs(b.tabs);
      var countable := CountableTabs(normal);
      var minutes := if minutesSetting != 0 then minutesSetting else DefaultMinutes;
      var need := MinGroupTabs(minSetting);
      if |countable| >= StartThreshold && !isRunning {
        AutoStartTimer(minutes, now);
      }
      if |countable| < need && isRunning {
        AutoStopTimer();
      }
    }

    /**
     * The synchronous start of `groupInactiveTabs` (lines 80-93): refuse with
     * an ERROR while a pass holds the guard, otherwise take the guard and arm
     * a fresh 30-second safeguard, whose id the pass keeps.
     */
    method BeginGrouping() returns (accepted: bool, timeoutId: nat)
      requires Valid()
      modifies this`isGrouping, this`pendingTimeouts, this`nextTimeoutId, this`events
      ensures Valid() && isGrouping
      ensures accepted == !old(isGrouping)
      ensures !accepted ==> && pendingTimeouts == old(pendingTimeouts) && nextTimeoutId == old(nextTimeoutId)
                            && events == old(events) + [Error(AlreadyInProgress)]
      ensures accepted ==> && timeoutId == old(nextTimeoutId) && timeoutId !in old(pendingTimeouts)
                           && pendingTimeouts == old(pendingTimeouts) + {timeoutId}
                           && nextTimeoutId == timeoutId + 1 && events == old(events)
    {
      if isGrouping {
        Notify(Error(AlreadyInProgress));
        return false, 0;
      }
      isGrouping := true;
      timeoutId := nextTimeoutId;
      pendingTimeouts := pendingTimeouts + {timeoutId};
      nextTimeoutId := nextTimeoutId + 1;
      accepted := true;
    }

    /**
     * A pending safeguard fires (lines 87-92): drop the guard, whichever pass
     * holds it, and report.
     */
    method GroupingTimedOut(timeoutId: nat)
      requires Valid() && timeoutId in pendingTimeouts
      modifies this`isGrouping, this`pendingTimeouts, this`events
      ensures Valid() && !isGrouping && pendingTimeouts == old(pendingTimeouts) - {timeoutId}
      ensures events == old(events) + [Error(TimedOut)]
    {
      pendingTimeouts := pendingTimeouts - {timeoutId};
      isGrouping := false;
      Notify(Error(TimedOut));
    }

    /**
     * The loop at lines 111-123: give every normal tab an entry and re-stamp
     * the active ones.
     */
    method ResyncStates(normal: seq<Tab>, now: int)
      modifies this`tabStates
      ensures tabStates == Resync(old(tabStates), normal, now)
    {
      var i := 0;
      while i < |normal|
        invariant 0 <= i <= |normal|
        invariant Resync(tabStates, normal[i..], now) == Resync(old(tabStates), normal, now)
      {
        assert normal[i..][0] == normal[i] && normal[i..][1..] == normal[i + 1..];
        var t := normal[i];
        ghost var before := tabStates;
        if t.id !in tabStates {
          tabStates := tabStates[t.id := TabState(if t.lastAccessed != 0 then t.lastAccessed else now, false, t.active)];
        }
        if t.active {
          tabStates := tabStates[t.id := tabStates[t.id].(lastAccessed := now, isActive := true)];
        }
        assert tabStates == before[t.id := ResyncEntry(before, t, now)];
        i := i + 1;
      }
      assert normal[i..] == [];
    }

    /** The `forEach` at lines 175-178 over the grouped tabs. */
    method ParkGrouped(grouped: seq<Tab>)
      requires forall t :: t in grouped ==> t.id in tabStates
      modifies this`tabStates
      ensures tabStates == Park(old(tabStates), TabIds(grouped))
    {
      var i := 0;
      while i < |grouped|
        invariant 0 <= i <= |grouped|
        invariant tabStates == Park(old(tabStates), TabIds(grouped[..i]))
      {
        var t := grouped[i];
        assert t.id in old(tabStates);
        ghost var before := tabStates;
        tabStates := tabStates[t.id := tabStates[t.id].(isHidden := false)];
        tabStates := tabStates[t.id := tabStates[t.id].(isActive := false)];
        assert tabStates == before[t.id := old(tabStates)[t.id].(isHidden := false, isActive := false)];
        assert TabIds(grouped[..i + 1]) == TabIds(grouped[..i]) + {t.id} by {
          assert grouped[..i + 1] == grouped[..i] + [t];
        }
        ParkExtend(old(tabStates), TabIds(grouped[..i]), t.id);
        i := i + 1;
      }
      assert grouped[..i] == grouped;
    }

    /**
     * `validateGroupId(g)`: keep `g` when it names a live "Inactive Tabs"
     * group; otherwise clear the stored id. A null or 0 argument returns
     * null and leaves storage alone.
     */
    method ValidateGroupId(g: Option<int>, groups: map<int, Group>) returns (r: Option<int>)
      modifies this`storedGroupId
      ensures r == Validated(g, groups)
      ensures storedGroupId == (if g.Some? && g.value != 0 && r.None? then None else old(storedGroupId))
    {
      if g.None? || g.value == 0 {
        return None;
      }
      if IsHolding(groups, g.value) {
        return g;
      }
      storedGroupId := None;
      r := None;
    }

    /** Lines 96-133: list the normal tabs, re-sync their entries, select the candidates. */
    method SelectCandidates(minutes: int, now: int, tabs: seq<Tab>) returns (inactive: seq<Tab>)
      modifies this`tabStates
      ensures tabStates == Resync(old(tabStates), NormalTabs(tabs), now)
      ensures inactive == InactiveTabs(NormalTabs(tabs), tabStates, now, minutes)
    {
      var normal := CollectNormalTabs(tabs);
      ResyncStates(normal, now);
      inactive := InactiveTabs(normal, tabStates, now, minutes);
    }

    /**
     * Lines 148-169: resolve the destination group, creating it from the
     * first candidate when needed. None when the creating call rejects
     * (which it does when there is no candidate to seed the group with).
     */
    method ResolveDestination(b: Browser, cands: seq<Tab>, freshId: int, fault: Fault)
      returns (b': Browser, target: Option<int>, created: bool)
      requires WellFormed(b) && freshId !in b.groups && InSomeGroup(freshId)
      modifies this`storedGroupId
      ensures created == (MustCreate(old(storedGroupId), b.groups) && target.Some?)
      ensures var creates := MustCreate(old(storedGroupId), b.groups);
              if creates && (cands == [] || fault == FailAt(CreateGroup)) then
                target.None? && b' == b && storedGroupId == StorageAfterValidate(old(storedGroupId), b.groups)
              else
                && target.Some?
                && Destination(old(storedGroupId), b.groups, freshId, target.value, storedGroupId, b'.groups)
                && b'.tabs == (if creates then MoveToGroup(b.tabs, {cands[0].id}, freshId) else b.tabs)
    {
      b', created := b, false;
      target := ValidateGroupId(Stored(storedGroupId), b.groups);
      if target.None? && HasHolding(b.groups) {
        var g :| g in b.groups && IsHolding(b.groups, g);
        target := Some(g);
        storedGroupId := target;
      }
      if target.None? {
        if cands == [] || fault == FailAt(CreateGroup) {
          return;
        }
        b' := Browser(MoveToGroup(b.tabs, {cands[0].id}, freshId), b.groups[freshId := Group(InactiveTitle, true)]);
        target := Some(freshId);
        storedGroupId := target;
        created := true;
      }
    }

    /**
     * Lines 144-184, once the floor is met: announce the pass, resolve the
     * destination, move the candidates into it and park their entries.
     */
    method GroupCandidates(b: Browser, cands: seq<Tab>, freshId: int, fault: Fault)
      returns (b': Browser, target: Option<int>)
      requires WellFormed(b) && freshId !in b.groups && InSomeGroup(freshId)
      requires forall t :: t in cands ==> t.id in tabStates
      modifies this`tabStates, this`storedGroupId, this`events
      ensures |events| >= |old(events)| && events[..|old(events)|] == old(events)
      ensures GroupedAs(old(tabStates), old(storedGroupId), b, cands, freshId, fault,
                        tabStates, storedGroupId, events[|old(events)|..], b', target)
    {
      ghost var ev0 := events;
      Notify(GroupingStarted);
      var created;
      b', target, created := ResolveDestination(b, cands, freshId, fault);
      if target.None? {
        Notify(Error(PlatformFailure(CreateGroup)));
        assert events[|ev0|..] == [GroupingStarted, Error(PlatformFailure(CreateGroup))];
        return;
      }
      var rest := if created then cands[1..] else cands;
      if |rest| > 0 {
        if fault == FailAt(MoveTabs) {
          Notify(Error(PlatformFailure(MoveTabs)));
          assert events[|ev0|..] == [GroupingStarted, Error(PlatformFailure(MoveTabs))];
          return;
        }
        ghost var before := b'.tabs;
        b' := Browser(MoveToGroup(b'.tabs, TabIds(rest), target.value), b'.groups);
        MoveCombines(b.tabs, cands, rest, target.value, before, b'.tabs);
      } else {
        assert b'.tabs == MoveToGroup(b.tabs, TabIds(cands), target.value) by {
          MoveCombines(b.tabs, cands, rest, target.value, b'.tabs, MoveToGroup(b'.tabs, TabIds(rest), target.value));
        }
      }
      ParkGrouped(cands);
      Notify(GroupingComplete(|cands|));
      assert events[|ev0|..] == [GroupingStarted, GroupingComplete(|cands|)];
    }

    /** Lines 135-184: enforce the floor `need`, then group the candidates. */
    method GroupIfEnough(b: Browser, cands: seq<Tab>, need: int, freshId: int, fault: Fault)
      returns (b': Browser, target: Option<int>)
      requires WellFormed(b) && freshId !in b.groups && InSomeGroup(freshId)
      requires forall t :: t in cands ==> t.id in tabStates
      modifies this`tabStates, this`storedGroupId, this`events
      ensures |events| >= |old(events)| && events[..|old(events)|] == old(events)
      ensures FloorOutcome(old(tabStates), old(storedGroupId), b, cands, need, freshId, fault,
                           tabStates, storedGroupId, events[|old(events)|..], b', target)
    {
      if |cands| < need {
        Notify(NotEnoughTabs(need));
        assert events[|old(events)|..] == [NotEnoughTabs(need)];
        return b, None;
      }
      b', target := GroupCandidates(b, cands, freshId, fault);
    }

    /**
     * The body of `groupInactiveTabs` after its first await (lines 95-190),
     * for the pass that armed safeguard `timeoutId`: select the candidates,
     * enforce the floor, then group them. Whatever happens, the pass clears
     * its own safeguard (lines 140, 180, 186; a no-op when it already fired)
     * and drops the guard (line 189), even when its safeguard fired and a
     * newer pass has taken the guard since.
     */
    method FinishGrouping(timeoutId: nat, minutes: int, now: int, b: Browser, minSetting: int, freshId: int, fault: Fault)
      returns (b': Browser, target: Option<int>)
      requires Valid() && WellFormed(b)
      requires freshId !in b.groups && InSomeGroup(freshId)
      modifies this`tabStates, this`storedGroupId, this`events, this`isGrouping, this`pendingTimeouts
      ensures Valid() && !isGrouping && pendingTimeouts == old(pendingTimeouts) - {timeoutId}
      ensures |events| >= |old(events)| && events[..|old(events)|] == old(events)
      ensures PassOutcome(old(tabStates), old(storedGroupId), b, now, minutes, minSetting, freshId, fault,
                          tabStates, storedGroupId, events[|old(events)|..], b', target)
    {
      ghost var ev0 := events;
      b', target := b, None;
      if fault == FailAt(QueryTabs) {
        Notify(Error(PlatformFailure(QueryTabs)));
        assert events[|ev0|..] == [Error(PlatformFailure(QueryTabs))];
      } else {
        var inactive := SelectCandidates(minutes, now, b.tabs);
        b', target := GroupIfEnough(b, inactive, MinGroupTabs(minSetting), freshId, fault);
      }
      pendingTimeouts := pendingTimeouts - {timeoutId};
      isGrouping := false;
    }

    /** `groupInactiveTabs(minutes)` when no other handler runs until it completes. */
    method GroupInactiveTabs(minutes: int, now: int, b: Browser, minSetting: int, freshId: int, fault: Fault)
      returns (b': Browser, target: Option<int>)
      requires Valid() && WellFormed(b) && freshId !in b.groups && InSomeGroup(freshId)
      modifies this`tabStates, this`storedGroupId, this`events, this`isGrouping, this`pendingTimeouts, this`nextTimeoutId
      ensures Valid()
      ensures old(isGrouping) ==>
                && isGrouping && pendingTimeouts == old(pendingTimeouts) && nextTimeoutId == old(nextTimeoutId)
                && tabStates == old(tabStates) && storedGroupId == old(storedGroupId)
                && b' == b && target.None? && events == old(events) + [Error(AlreadyInProgress)]
      ensures !old(isGrouping) ==>
                && !isGrouping && pendingTimeouts == old(pendingTimeouts) && nextTimeoutId == old(nextTimeoutId) + 1
                && |events| >= |old(events)| && events[..|old(events)|] == old(events)
                && PassOutcome(old(tabStates), old(storedGroupId), b, now, minutes, minSetting, freshId, fault,
                               tabStates, storedGroupId, events[|old(events)|..], b', target)
    {
      var accepted, timeoutId := BeginGrouping();
      if !accepted {
        return b, None;
      }
      b', target := FinishGrouping(timeoutId, minutes, now, b, minSetting, freshId, fault);
    }

    /**
     * The GROUP_NOW message, `handleGroupNow(msg.minutes || currentMinutes || 30)`
     * (lines 254-261, 327-329); `msgMinutes` is 0 when the message has none.
     */
    method HandleGroupNow(msgMinutes: int, now: int, b: Browser, minSetting: int, freshId: int, fault: Fault)
      returns (b': Browser, target: Option<int>)
      requires Valid() && WellFormed(b) && freshId !in b.groups && InSomeGroup(freshId)
      modifies this`tabStates, this`storedGroupId, this`events, this`isGrouping, this`pendingTimeouts, this`nextTimeoutId
      ensures Valid()
      ensures old(isGrouping) ==>
                && isGrouping && pendingTimeouts == old(pendingTimeouts) && nextTimeoutId == old(nextTimeoutId)
                && tabStates == old(tabStates) && storedGroupId == old(storedGroupId)
                && b' == b && target.None? && events == old(events) + [Error(AlreadyInProgress)]
      ensures !old(isGrouping) ==>
                var minutes := if msgMinutes != 0 then msgMinutes
                               else if currentMinutes != 0 then currentMinutes else DefaultMinutes;
                && !isGrouping && pendingTimeouts == old(pendingTimeouts) && nextTimeoutId == old(nextTimeoutId) + 1
                && |events| >= |old(events)| && events[..|old(events)|] == old(events)
                && PassOutcome(old(tabStates), old(storedGroupId), b, now, minutes, minSetting, freshId, fault,
                               tabStates, storedGroupId, events[|old(events)|..], b', target)
    {
      var minutes := if msgMinutes != 0 then msgMinutes else if currentMinutes != 0 then currentMinutes else DefaultMinutes;
      if isGrouping {
        Notify(Error(AlreadyInProgress));
        return b, None;
      }
      b', target := GroupInactiveTabs(minutes, now, b, minSetting, freshId, fault);
    }

    /**
     * The `inactiveTimer` alarm branch (lines 430-433): a grouping pass over
     * `currentMinutes`, then `clearTimer`.
     */
    method InactiveTimerFired(now: int, b: Browser, minSetting: int, freshId: int, fault: Fault)
      returns (b': Browser, target: Option<int>)
      requires Valid() && InactiveTimer in alarms
      requires WellFormed(b) && freshId !in b.groups && InSomeGroup(freshId)
      modifies this`tabStates, this`storedGroupId, this`events, this`isGrouping, this`pendingTimeouts, this`nextTimeoutId
      modifies this`alarms, this`isRunning, this`endTime
      ensures Valid() && !isRunning && endTime.None? && alarms == old(alarms) - {InactiveTimer}
      ensures old(isGrouping) ==>
                && isGrouping && pendingTimeouts == old(pendingTimeouts) && nextTimeoutId == old(nextTimeoutId)
                && tabStates == old(tabStates) && storedGroupId == old(storedGroupId)
                && b' == b && target.None? && events == old(events) + [Error(AlreadyInProgress)]
      ensures !old(isGrouping) ==>
                && !isGrouping && pendingTimeouts == old(pendingTimeouts) && nextTimeoutId == old(nextTimeoutId) + 1
                && |events| >= |old(events)| && events[..|old(events)|] == old(events)
                && PassOutcome(old(tabStates), old(storedGroupId), b, now, currentMinutes, minSetting, freshId, fault,
                               tabStates, storedGroupId, events[|old(events)|..], b', target)
    {
      b', target := GroupInactiveTabs(currentMinutes, now, b, minSetting, freshId, fault);
      ClearTimer();
    }

    /**
     * `chrome.tabs.onActivated` (lines 487-519): the tab's entry becomes
     * active and dated `now`; a tab in the holding group is queued for
     * release unless already queued, so its first timestamp stays.
     */
    method OnActivated(tabId: int, now: int, b: Browser)
      modifies this`tabStates, this`ungroupQueue
      ensures tabStates == old(tabStates)[tabId := TabState(now, false, true)]
      ensures ungroupQueue == if InHoldingGroup(b, tabId) then Enqueue(old(ungroupQueue), tabId, now)
                              else old(ungroupQueue)
    {
      if tabId in tabStates {
        tabStates := tabStates[tabId := tabStates[tabId].(isActive := true, lastAccessed := now, isHidden := false)];
      } else {
        tabStates := tabStates[tabId := TabState(now, false, true)];
      }
      var tab := FindTab(b.tabs, tabId);
      if tab.Some? && InSomeGroup(tab.value.groupId) && IsHolding(b.groups, tab.value.groupId) {
        if tabId !in ungroupQueue {
          ungroupQueue := ungroupQueue[tabId := now];
        }
      }
    }

    /**
     * `chrome.tabs.onUpdated` (lines 521-540): a finished load or a new URL
     * re-dates the tab; `active === false` takes it off the release queue.
     */
    method OnUpdated(tabId: int, change: Change, tabActive: bool, now: int)
      modifies this`tabStates, this`ungroupQueue
      ensures tabStates == if change.statusComplete || change.urlChanged then
                             old(tabStates)[tabId := if tabId in old(tabStates)
                                                     then old(tabStates)[tabId].(lastAccessed := now)
                                                     else TabState(now, false, tabActive)]
                           else old(tabStates)
      ensures ungroupQueue == if change.active == Some(false) then old(ungroupQueue) - {tabId}
                              else old(ungroupQueue)
    {
      if change.statusComplete || change.urlChanged {
        if tabId in tabStates {
          tabStates := tabStates[tabId := tabStates[tabId].(lastAccessed := now)];
        } else {
          tabStates := tabStates[tabId := TabState(now, false, tabActive)];
        }
      }
      if change.active == Some(false) && tabId in ungroupQueue {
        ungroupQueue := ungroupQueue - {tabId};
      }
    }

    /** `chrome.tabs.onRemoved` (lines 542-548). */
    method OnRemoved(tabId: int)
      modifies this`tabStates, this`ungroupQueue
      ensures tabStates == old(tabStates) - {tabId} && ungroupQueue == old(ungroupQueue) - {tabId}
    {
      if tabId in tabStates {
        tabStates := tabStates - {tabId};
      }
      ungroupQueue := ungroupQueue - {tabId};
    }

    /** `chrome.tabGroups.onRemoved` (lines 550-555): forget the stored id of a removed group. */
    method OnGroupRemoved(groupId: int)
      modifies this`storedGroupId
      ensures storedGroupId == if Stored(old(storedGroupId)) == Some(groupId) then None else old(storedGroupId)
    {
      if Stored(storedGroupId) == Some(groupId) {
        storedGroupId := None;
      }
    }

    /** The synchronous start of `processUngroupQueue` (lines 265-267). */
    method BeginUngroupPass() returns (accepted: bool)
      modifies this`isProcessingUngroup
      ensures accepted == !old(isProcessingUngroup) && isProcessingUngroup
    {
      if isProcessingUngroup {
        return false;
      }
      isProcessingUngroup := true;
      accepted := true;
    }

    /**
     * The rest of `processUngroupQueue` (lines 268-314): every entry at least
     * `UngroupDelay` old is dropped whatever happens to it, and its tab is
     * released when still active and still in the holding group; younger
     * entries stay with their timestamps. Entries are visited in any order.
     */
    method FinishUngroupPass(now: int, b: Browser) returns (b': Browser)
      requires WellFormed(b)
      modifies this`ungroupQueue, this`isProcessingUngroup
      ensures !isProcessingUngroup
      ensures ungroupQueue == Pending(old(ungroupQueue), now)
      ensures WellFormed(b') && DrainEffect(b, b', Expired(old(ungroupQueue), now))
    {
      var q := ungroupQueue;
      var keys := q.Keys;
      var toDelete: set<int> := {};
      b' := b;
      while keys != {}
        invariant keys <= q.Keys
        invariant forall k :: k in toDelete <==> k in q && k !in keys && now - q[k] >= UngroupDelay
        invariant WellFormed(b') && DrainEffect(b, b', toDelete)
        decreases keys
      {
        SomeMember(keys);
        var k :| k in keys;
        if now - q[k] >= UngroupDelay {
          if autoUngroup {
            DrainStep(b, b', toDelete, k);
            b' := ReleaseStep(b', k);
          }
          toDelete := toDelete + {k};
        }
        keys := keys - {k};
      }
      ungroupQueue := q - toDelete;
      assert keys == {};
      assert forall k :: k in toDelete <==> k in Expired(q, now);
      assert toDelete == Expired(q, now);
      assert forall k :: k in ungroupQueue <==> k in Pending(q, now);
      isProcessingUngroup := false;
    }

    /**
     * `processUngroupQueue` (lines 264-315) when no other handler runs until
     * it completes; a call while a drain is in flight does nothing.
     */
    method ProcessUngroupQueue(now: int, b: Browser) returns (b': Browser)
      requires WellFormed(b)
      modifies this`ungroupQueue, this`isProcessingUngroup
      ensures old(isProcessingUngroup) ==> isProcessingUngroup && ungroupQueue == old(ungroupQueue) && b' == b
      ensures !old(isProcessingUngroup) ==>
                && !isProcessingUngroup
                && ungroupQueue == Pending(old(ungroupQueue), now)
                && WellFormed(b') && DrainEffect(b, b', Expired(old(ungroupQueue), now))
    {
      var accepted := BeginUngroupPass();
      if !accepted {
        return b;
      }
      b' := FinishUngroupPass(now, b);
    }

    /** `cleanupTabStates` (lines 215-227): drop the entries of tabs that no longer exist. */
    method CleanupTabStates(b: Browser)
      modifies this`tabStates
      ensures tabStates == Prune(old(tabStates), TabIds(b.tabs))
    {
      var live := TabIds(b.tabs);
      var keys := tabStates.Keys;
      while keys != {}
        invariant keys <= old(tabStates).Keys
        invariant tabStates == map k | k in old(tabStates) && (k in keys || k in live) :: old(tabStates)[k]
        decreases keys
      {
        SomeMember(keys);
        var k :| k in keys;
        if k !in live {
          tabStates := tabStates - {k};
        }
        keys := keys - {k};
      }
      assert tabStates == Prune(old(tabStates), live);
    }

    /**
     * `initializeTabStates(held)` (lines 38-76): an entry for every tab in a
     * normal window, dated a year back for a tab in group `held`.
     */
    method InitializeTabStates(held: Option<int>, now: int, b: Browser)
      modifies this`tabStates
      ensures tabStates == Seed(old(tabStates), b.tabs, held, now)
    {
      var i := 0;
      while i < |b.tabs|
        invariant 0 <= i <= |b.tabs|
        invariant Seed(tabStates, b.tabs[i..], held, now) == Seed(old(tabStates), b.tabs, held, now)
      {
        assert b.tabs[i..][0] == b.tabs[i] && b.tabs[i..][1..] == b.tabs[i + 1..];
        var tab := b.tabs[i];
        if tab.windowIsNormal {
          var isInInactiveGroup := held.Some? && held.value != 0 && tab.groupId == held.value;
          if isInInactiveGroup {
            tabStates := tabStates[tab.id := TabState(now - YearMs, false, false)];
          } else {
            tabStates := tabStates[tab.id := TabState(now, false, tab.active)];
          }
        }
        i := i + 1;
      }
      assert b.tabs[i..] == [];
    }

    /** A live group titled "Inactive Tabs", as `groups.find(...)` returns it, if any. */
    method FindHoldingGroup(groups: map<int, Group>) returns (found: Option<int>)
      ensures found.Some? ==> IsHolding(groups, found.value)
      ensures found.None? <==> !HasHolding(groups)
    {
      if HasHolding(groups) {
        var g :| g in groups && IsHolding(groups, g);
        found := Some(g);
      } else {
        found := None;
      }
    }

    /**
     * The FORCE_RESET message (lines 330-356): stop the countdown, drop both
     * guards and the queue, and re-seed the table (which is not emptied
     * first) with the live holding group.
     */
    method ForceReset(now: int, b: Browser) returns (held: Option<int>)
      requires Valid()
      modifies this`alarms, this`isRunning, this`endTime, this`isGrouping, this`isProcessingUngroup
      modifies this`ungroupQueue, this`tabStates, this`events
      ensures Valid()
      ensures !isRunning && endTime.None? && alarms == old(alarms) - {InactiveTimer}
      ensures !isGrouping && !isProcessingUngroup && ungroupQueue == map[]
      ensures held.Some? ==> IsHolding(b.groups, held.value)
      ensures held.None? <==> !HasHolding(b.groups)
      ensures tabStates == Seed(old(tabStates), b.tabs, held, now)
      ensures events == old(events) + [Stopped]
    {
      ClearTimer();
      isGrouping := false;
      isProcessingUngroup := false;
      ungroupQueue := map[];
      held := FindHoldingGroup(b.groups);
      InitializeTabStates(held, now, b);
      Notify(Stopped);
    }

    /** The reset shared by install and startup (lines 366-374, 405-413). */
    method ResetSession()
      modifies this`isRunning, this`endTime, this`currentMinutes, this`isGrouping
      modifies this`isProcessingUngroup, this`ungroupQueue, this`tabStates, this`alarms
      ensures !isRunning && endTime.None? && currentMinutes == 0 && !isGrouping && !isProcessingUngroup
      ensures ungroupQueue == map[] && tabStates == map[] && alarms == {}
    {
      isRunning := false;
      endTime := None;
      currentMinutes := 0;
      isGrouping := false;
      isProcessingUngroup := false;
      ungroupQueue := map[];
      tabStates := map[];
      alarms := {};
    }

    /**
     * `chrome.runtime.onInstalled` (lines 365-402): reset, adopt a live
     * holding group (storing its id) or else validate the stored one, seed
     * the table with it, and register the periodic alarms.
     */
    method OnInstalled(now: int, b: Browser) returns (held: Option<int>)
      requires Valid()
      modifies this`isRunning, this`endTime, this`currentMinutes, this`isGrouping
      modifies this`isProcessingUngroup, this`ungroupQueue, this`tabStates, this`alarms, this`storedGroupId
      ensures Valid()
      ensures !isRunning && endTime.None? && currentMinutes == 0 && !isGrouping && !isProcessingUngroup
      ensures ungroupQueue == map[] && alarms == PeriodicAlarms
      ensures HasHolding(b.groups) ==> held.Some? && IsHolding(b.groups, held.value) && storedGroupId == held
      ensures !HasHolding(b.groups) ==> held.None? && storedGroupId == StorageAfterValidate(old(storedGroupId), b.groups)
      ensures tabStates == Seed(map[], b.tabs, held, now)
    {
      ResetSession();
      held := FindHoldingGroup(b.groups);
      if held.Some? {
        storedGroupId := held;
      } else {
        held := ValidateGroupId(Stored(storedGroupId), b.groups);
      }
      InitializeTabStates(held, now, b);
      alarms := PeriodicAlarms;
    }

    /**
     * `chrome.runtime.onStartup` as written (lines 404-427): the table is
     * seeded with no holding group, and the stored id is validated only
     * afterwards, its result unused.
     */
    method OnStartup(now: int, b: Browser)
      requires Valid()
      modifies this`isRunning, this`endTime, this`currentMinutes, this`isGrouping
      modifies this`isProcessingUngroup, this`ungroupQueue, this`tabStates, this`alarms, this`storedGroupId
      ensures Valid()
      ensures !isRunning && endTime.None? && currentMinutes == 0 && !isGrouping && !isProcessingUngroup
      ensures ungroupQueue == map[] && alarms == PeriodicAlarms
      ensures tabStates == Seed(map[], b.tabs, None, now)
      ensures storedGroupId == StorageAfterValidate(old(storedGroupId), b.groups)
    {
      ResetSession();
      InitializeTabStates(None, now, b);
      var validGroupId := ValidateGroupId(Stored(storedGroupId), b.groups);
      alarms := PeriodicAlarms;
    }

    /**
     * Startup as its validation step evidently intends: validate the stored
     * id first and seed the table with it, as install does.
     */
    method OnStartupSeedingHeldGroup(now: int, b: Browser) returns (held: Option<int>)
      requires Valid()
      modifies this`isRunning, this`endTime, this`currentMinutes, this`isGrouping
      modifies this`isProcessingUngroup, this`ungroupQueue, this`tabStates, this`alarms, this`storedGroupId
      ensures Valid()
      ensures !isRunning && endTime.None? && currentMinutes == 0 && !isGrouping && !isProcessingUngroup
      ensures ungroupQueue == map[] && alarms == PeriodicAlarms
      ensures held == Validated(Stored(old(storedGroupId)), b.groups)
      ensures tabStates == Seed(map[], b.tabs, held, now)
      ensures storedGroupId == StorageAfterValidate(old(storedGroupId), b.groups)
    {
      ResetSession();
      held := ValidateGroupId(Stored(storedGroupId), b.groups);
      InitializeTabStates(held, now, b);
      alarms := PeriodicAlarms;
    }

    /** `chrome.runtime.onSuspend` (lines 557-568). */
    method OnSuspend()
      requires Valid()
      modifies this`alarms, this`isRunning, this`endTime, this`isGrouping, this`isProcessingUngroup
      modifies this`ungroupQueue, this`tabStates
      ensures Valid()
      ensures !isRunning && endTime.None? && alarms == old(alarms) - {InactiveTimer}
      ensures !isGrouping && !isProcessingUngroup && ungroupQueue == map[] && tabStates == map[]
    {
      ClearTimer();
      isGrouping := false;
      isProcessingUngroup := false;
      ungroupQueue := map[];
      tabStates := map[];
    }
  }

  /** Moving the seed tab and then the rest is moving all candidates at once. */
  lemma MoveCombines(tabs: seq<Tab>, cands: seq<Tab>, rest: seq<Tab>, g: int, mid: seq<Tab>, r: seq<Tab>)
    requires rest == cands || (cands != [] && rest == cands[1..])
    requires mid == (if rest == cands then tabs else MoveToGroup(tabs, {cands[0].id}, g))
    requires r == MoveToGroup(mid, TabIds(rest), g)
    ensures r == MoveToGroup(tabs, TabIds(cands), g)
  {
    if rest != cands {
      assert TabIds(cands) == {cands[0].id} + TabIds(rest) by {
        assert cands == [cands[0]] + rest;
      }
    }
  }

  /**
   * Every grouping pass leaves at most one group titled "Inactive Tabs":
   * a new one is created only when no live group has that title, and a
   * destination, once resolved, is such a group.
   */
  lemma PassKeepsOneHoldingGroup(st0: States, stored0: Option<int>, b: Browser, now: int, minutes: int,
                                 minSetting: int, freshId: int, fault: Fault,
                                 st1: States, stored1: Option<int>, emitted: seq<Event>, b': Browser, target: Option<int>)
    requires WellFormed(b) && AtMostOneHolding(b.groups) && freshId !in b.groups && InSomeGroup(freshId)
    requires PassOutcome(st0, stored0, b, now, minutes, minSetting, freshId, fault, st1, stored1, emitted, b', target)
    ensures AtMostOneHolding(b'.groups)
    ensures target.Some? ==> IsHolding(b'.groups, target.value) && Stored(stored1) == target
  {
    if b'.groups != b.groups {
      assert MustCreate(stored0, b.groups);
      assert b'.groups == b.groups[freshId := Group(InactiveTitle, true)];
      forall g | g in b'.groups && g != freshId
        ensures !IsHolding(b'.groups, g)
      {
        assert b'.groups[g] == b.groups[g] && !IsHolding(b.groups, g);
      }
    }
  }

  /** A tab that grouping the candidates `cands` moves is a candidate, moved into the destination. */
  lemma GroupedMovesOnlyCandidates(st0: States, stored0: Option<int>, b: Browser, cands: seq<Tab>, freshId: int,
                                   fault: Fault, st1: States, stored1: Option<int>, emitted: seq<Event>, b': Browser,
                                   target: Option<int>, i: int)
    requires GroupedAs(st0, stored0, b, cands, freshId, fault, st1, stored1, emitted, b', target)
    requires 0 <= i < |b.tabs|
    ensures |b'.tabs| == |b.tabs|
    ensures b'.tabs[i] != b.tabs[i] ==>
              target.Some? && b'.tabs[i] == b.tabs[i].(groupId := target.value) && b.tabs[i].id in TabIds(cands)
  {
    if b' != b && MustCreate(stored0, b.groups) && cands != [] {
      assert cands[0] in cands;
    }
  }

  /**
   * The tabs a grouping pass moves are exactly candidates: each sits in a
   * normal window, is neither active, pinned nor audible, and was last
   * used more than `minutes` minutes before `now` by the table it was
   * judged against. Nothing else in the browser changes group.
   */
  lemma {:induction false} PassMovesOnlyIdleTabs(st0: States, stored0: Option<int>, b: Browser, now: int, minutes: int,
                                                 minSetting: int, freshId: int, fault: Fault,
                                                 st1: States, stored1: Option<int>, emitted: seq<Event>, b': Browser,
                                                 target: Option<int>, i: int)
    requires WellFormed(b)
    requires PassOutcome(st0, stored0, b, now, minutes, minSetting, freshId, fault, st1, stored1, emitted, b', target)
    requires 0 <= i < |b.tabs|
    ensures |b'.tabs| == |b.tabs|
    ensures b'.tabs[i] != b.tabs[i] ==>
              var t := b.tabs[i];
              && target.Some? && b'.tabs[i] == t.(groupId := target.value)
              && t.windowIsNormal && !t.active && !t.pinned && !t.audible
              && now - JudgedStamp(st0, t, now) > minutes * 60 * 1000
  {
    var normal := NormalTabs(b.tabs);
    var st := Resync(st0, normal, now);
    var cands := InactiveTabs(normal, st, now, minutes);
    if fault != FailAt(QueryTabs) && |cands| >= MinGroupTabs(minSetting) {
      GroupedMovesOnlyCandidates(st, stored0, b, cands, freshId, fault, st1, stored1, emitted, b', target, i);
      var t := b.tabs[i];
      if b'.tabs[i] != t {
        var c :| c in cands && c.id == t.id;
        CandidateIff(st0, b.tabs, now, minutes, c);
        var j :| 0 <= j < |b.tabs| && b.tabs[j] == c;
        assert j == i;
      }
    }
  }

  /**
   * A pass that reports completion has moved every candidate into the
   * holding group, recorded that group as the stored id, and parked each
   * candidate's entry (neither hidden nor active), with at least the
   * required number of tabs.
   */
  lemma {:induction false} CompletedPassGroupsCandidates(st0: States, stored0: Option<int>, b: Browser, now: int,
                                                         minutes: int, minSetting: int, freshId: int, fault: Fault,
                                                         st1: States, stored1: Option<int>, emitted: seq<Event>,
                                                         b': Browser, target: Option<int>, n: int)
    requires WellFormed(b) && InSomeGroup(freshId)
    requires PassOutcome(st0, stored0, b, now, minutes, minSetting, freshId, fault, st1, stored1, emitted, b', target)
    requires GroupingComplete(n) in emitted
    ensures var normal := NormalTabs(b.tabs);
            var cands := InactiveTabs(normal, Resync(st0, normal, now), now, minutes);
            && n == |cands| >= MinGroupTabs(minSetting)
            && target.Some? && Stored(stored1) == target
            && (forall i :: 0 <= i < |b.tabs| && b.tabs[i] in cands ==> b'.tabs[i].groupId == target.value)
            && (forall c :: c in cands ==> c.id in st1 && !st1[c.id].isActive && !st1[c.id].isHidden)
  {
    var normal := NormalTabs(b.tabs);
    var st := Resync(st0, normal, now);
    var cands := InactiveTabs(normal, st, now, minutes);
    assert fault != FailAt(QueryTabs) && |cands| >= MinGroupTabs(minSetting);
    assert st1 == Park(st, TabIds(cands));
    forall c | c in cands
      ensures c.id in st1 && !st1[c.id].isActive && !st1[c.id].isHidden
    {
      assert c.id in st && c.id in TabIds(cands);
    }
  }

  /**
   * Startup as written: a tab sitting in the validated holding group is
   * seeded as if just used, because the table is seeded before, and
   * without, the validated id.
   */
  lemma {:induction false} StartupDatesHeldTabsNow(b: Browser, stored: Option<int>, now: int, i: int)
    requires WellFormed(b) && 0 <= i < |b.tabs| && b.tabs[i].windowIsNormal
    requires Validated(Stored(stored), b.groups) == Some(b.tabs[i].groupId)
    ensures b.tabs[i].id in Seed(map[], b.tabs, None, now)
    ensures Seed(map[], b.tabs, None, now)[b.tabs[i].id] == TabState(now, false, b.tabs[i].active)
  {
    SeedAt(map[], b.tabs, None, now, i);
  }

  /**
   * Startup seeding the validated holding group: the same tab is dated a
   * year back and not active, as install seeds it.
   */
  lemma {:induction false} StartupAgesHeldTabs(b: Browser, stored: Option<int>, now: int, i: int)
    requires WellFormed(b) && 0 <= i < |b.tabs| && b.tabs[i].windowIsNormal
    requires Validated(Stored(stored), b.groups) == Some(b.tabs[i].groupId)
    ensures b.tabs[i].id in Seed(map[], b.tabs, Validated(Stored(stored), b.groups), now)
    ensures Seed(map[], b.tabs, Validated(Stored(stored), b.groups), now)[b.tabs[i].id]
            == TabState(now - YearMs, false, false)
  {
    SeedAt(map[], b.tabs, Validated(Stored(stored), b.groups), now, i);
  }
}
