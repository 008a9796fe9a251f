/**
 * The pure filters of the worker: which tabs are in normal windows, which of
 * them a grouping pass selects, and which the auto checker counts.
 */
module Selection {
  import opened Platform
  import opened TabTable

  /** `stored.minGroupTabs || 5`. */
  const DefaultMinGroupTabs: int := 5

  function MinGroupTabs(setting: int): int
  {
    if setting != 0 then setting else DefaultMinGroupTabs
  }

  /** The tabs whose window is a normal one, in query order. */
  function NormalTabs(tabs: seq<Tab>): (r: seq<Tab>)
    ensures forall t {:trigger t in r} :: t in r <==> t in tabs && t.windowIsNormal
    ensures UniqueIds(tabs) ==> UniqueIds(r)
    ensures |r| <= |tabs|
  {
    if tabs == [] then []
    else
      var rest := NormalTabs(tabs[1..]);
      assert UniqueIds(tabs) ==> UniqueIds(tabs[1..]) by {
        if UniqueIds(tabs) { UniqueTail(tabs); }
      }
      assert forall t :: t in rest ==> t in tabs[1..];
      if tabs[0].windowIsNormal then
        assert UniqueIds(tabs) ==> UniqueIds([tabs[0]] + rest) by {
          if UniqueIds(tabs) {
            forall i | 0 <= i < |rest| ensures rest[i].id != tabs[0].id {
              assert rest[i] in rest;
              var j :| 0 <= j < |tabs[1..]| && tabs[1..][j] == rest[i];
              assert tabs[j + 1] == rest[i];
            }
          }
        }
        [tabs[0]] + rest
      else rest
  }

  /** The predicate at lines 125-133, over a table that has been re-synced. */
  predicate IsCandidate(t: Tab, st: States, now: int, minutes: int)
  {
    t.id in st && !t.active && !t.pinned && !t.audible
    && now - st[t.id].lastAccessed > minutes * 60 * 1000
  }

  /** `normalTabs.filter(...)` at lines 125-133. */
  function InactiveTabs(normal: seq<Tab>, st: States, now: int, minutes: int): (r: seq<Tab>)
    ensures forall t :: t in r <==> t in normal && IsCandidate(t, st, now, minutes)
    ensures |r| <= |normal|
  {
    if normal == [] then []
    else
      var rest := InactiveTabs(normal[1..], st, now, minutes);
      assert forall t :: t in rest ==> t in normal[1..];
      if IsCandidate(normal[0], st, now, minutes) then [normal[0]] + rest else rest
  }

  /** The predicate at lines 451-457 (an undefined group id is `NoGroup` here). */
  predicate Countable(t: Tab)
  {
    !t.pinned && !t.audible && t.groupId == NoGroup
  }

  function CountableTabs(normal: seq<Tab>): (r: seq<Tab>)
    ensures forall t :: t in r <==> t in normal && Countable(t)
    ensures |r| <= |normal|
  {
    if normal == [] then []
    else
      var rest := CountableTabs(normal[1..]);
      assert forall t :: t in rest ==> t in normal[1..];
      if Countable(normal[0]) then [normal[0]] + rest else rest
  }

  /**
   * The timestamp a normal tab is judged by, once `groupInactiveTabs` has
   * re-synced the table: its existing entry, else `t.lastAccessed || now`.
   */
  function JudgedStamp(st: States, t: Tab, now: int): int
  {
    if t.id in st then st[t.id].lastAccessed
    else if t.lastAccessed != 0 then t.lastAccessed else now
  }

  /**
   * Candidate selection in terms of the table BEFORE the re-sync: a tab is
   * selected exactly when it is in a normal window, not active, not pinned,
   * not audible, and idle for longer than `minutes`. In particular no active
   * tab is ever selected.
   */
  lemma CandidateIff(st: States, tabs: seq<Tab>, now: int, minutes: int, t: Tab)
    requires UniqueIds(tabs)
    ensures var normal := NormalTabs(tabs);
            t in InactiveTabs(normal, Resync(st, normal, now), now, minutes)
            <==> t in tabs && t.windowIsNormal && !t.active && !t.pinned && !t.audible
                 && now - JudgedStamp(st, t, now) > minutes * 60 * 1000
  {
    var normal := NormalTabs(tabs);
    var synced := Resync(st, normal, now);
    assert t in InactiveTabs(normal, synced, now, minutes) <==> t in normal && IsCandidate(t, synced, now, minutes);
    if t in normal {
      var i :| 0 <= i < |normal| && normal[i] == t;
      ResyncAt(st, normal, now, i);
      assert t.id in synced && synced[t.id] == ResyncEntry(st, t, now);
      if !t.active {
        assert synced[t.id].lastAccessed == JudgedStamp(st, t, now);
      }
    }
  }
}
