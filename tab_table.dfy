/**
 * The worker's `tabStates` table: tab id to what the worker last observed of
 * that tab. The functions here are the table updates the handlers perform,
 * each written as a fold in the order the handler's loop visits the tabs.
 */
module TabTable {
  import opened Platform

  /** One year in milliseconds: how far back a tab already in the holding group is dated. */
  const YearMs: int := 365 * 24 * 60 * 60 * 1000

  datatype TabState = TabState(lastAccessed: int, isHidden: bool, isActive: bool)

  type States = map<int, TabState>

  /** The entry `initializeTabStates` writes for a tab in a normal window. */
  function SeedEntry(t: Tab, held: Option<int>, now: int): TabState
  {
    if held.Some? && held.value != 0 && t.groupId == held.value
    then TabState(now - YearMs, false, false)
    else TabState(now, false, t.active)
  }

  /** `initializeTabStates(held)`: the table after its loop over `tabs`. */
  function Seed(st: States, tabs: seq<Tab>, held: Option<int>, now: int): States
    decreases |tabs|
  {
    if tabs == [] then st
    else
      var st' := if tabs[0].windowIsNormal then st[tabs[0].id := SeedEntry(tabs[0], held, now)] else st;
      Seed(st', tabs[1..], held, now)
  }

  /** A tab whose id no normal-window tab in `tabs` carries keeps its entry, or its absence. */
  lemma {:induction false} SeedElsewhere(st: States, tabs: seq<Tab>, held: Option<int>, now: int, k: int)
    requires forall t :: t in tabs && t.windowIsNormal ==> t.id != k
    ensures k in Seed(st, tabs, held, now) <==> k in st
    ensures k in st ==> Seed(st, tabs, held, now)[k] == st[k]
    decreases |tabs|
  {
    if tabs != [] {
      var st' := if tabs[0].windowIsNormal then st[tabs[0].id := SeedEntry(tabs[0], held, now)] else st;
      assert forall t :: t in tabs[1..] ==> t in tabs;
      SeedElsewhere(st', tabs[1..], held, now, k);
    }
  }

  /** Every normal-window tab gets exactly the entry `SeedEntry` prescribes. */
  lemma {:induction false} SeedAt(st: States, tabs: seq<Tab>, held: Option<int>, now: int, i: int)
    requires UniqueIds(tabs) && 0 <= i < |tabs| && tabs[i].windowIsNormal
    ensures tabs[i].id in Seed(st, tabs, held, now)
    ensures Seed(st, tabs, held, now)[tabs[i].id] == SeedEntry(tabs[i], held, now)
    decreases |tabs|
  {
    var st' := if tabs[0].windowIsNormal then st[tabs[0].id := SeedEntry(tabs[0], held, now)] else st;
    UniqueTail(tabs);
    if i == 0 {
      forall t | t in tabs[1..] && t.windowIsNormal ensures t.id != tabs[0].id {
        var j :| 0 <= j < |tabs[1..]| && tabs[1..][j] == t;
        assert tabs[j + 1] == t;
      }
      SeedElsewhere(st', tabs[1..], held, now, tabs[0].id);
    } else {
      assert tabs[1..][i - 1] == tabs[i];
      SeedAt(st', tabs[1..], held, now, i - 1);
    }
  }

  /**
   * What `groupInactiveTabs` gives a normal tab (lines 111-123): the existing
   * entry, or a new one dated `t.lastAccessed || now`; an active tab is then
   * re-stamped to `now` and marked active.
   */
  function ResyncEntry(st: States, t: Tab, now: int): TabState
  {
    var base := if t.id in st then st[t.id]
                else TabState(if t.lastAccessed != 0 then t.lastAccessed else now, false, t.active);
    if t.active then base.(lastAccessed := now, isActive := true) else base
  }

  /** The table after the re-sync loop over the normal tabs. */
  function Resync(st: States, normal: seq<Tab>, now: int): States
    decreases |normal|
  {
    if normal == [] then st
    else Resync(st[normal[0].id := ResyncEntry(st, normal[0], now)], normal[1..], now)
  }

  lemma {:induction false} ResyncElsewhere(st: States, normal: seq<Tab>, now: int, k: int)
    requires forall t :: t in normal ==> t.id != k
    ensures k in Resync(st, normal, now) <==> k in st
    ensures k in st ==> Resync(st, normal, now)[k] == st[k]
    decreases |normal|
  {
    if normal != [] {
      assert forall t :: t in normal[1..] ==> t in normal;
      ResyncElsewhere(st[normal[0].id := ResyncEntry(st, normal[0], now)], normal[1..], now, k);
    }
  }

  /**
   * Each normal tab's entry after the re-sync depends only on its own
   * previous entry: every tab ends with an entry, and an active tab's entry
   * is dated `now`.
   */
  lemma {:induction false} ResyncAt(st: States, normal: seq<Tab>, now: int, i: int)
    requires UniqueIds(normal) && 0 <= i < |normal|
    ensures normal[i].id in Resync(st, normal, now)
    ensures Resync(st, normal, now)[normal[i].id] == ResyncEntry(st, normal[i], now)
    decreases |normal|
  {
    var st' := st[normal[0].id := ResyncEntry(st, normal[0], now)];
    UniqueTail(normal);
    if i == 0 {
      forall t | t in normal[1..] ensures t.id != normal[0].id {
        var j :| 0 <= j < |normal[1..]| && normal[1..][j] == t;
        assert normal[j + 1] == t;
      }
      ResyncElsewhere(st', normal[1..], now, normal[0].id);
    } else {
      assert normal[1..][i - 1] == normal[i];
      assert normal[i].id != normal[0].id;
      assert ResyncEntry(st', normal[i], now) == ResyncEntry(st, normal[i], now);
      ResyncAt(st', normal[1..], now, i - 1);
    }
  }

  /**
   * The `forEach` at lines 175-178: each grouped tab is marked visible and
   * inactive; every other entry, and every timestamp, is untouched.
   */
  function Park(st: States, ids: set<int>): (r: States)
    ensures r.Keys == st.Keys
    ensures forall k :: k in r && k in ids ==> !r[k].isActive && !r[k].isHidden && r[k].lastAccessed == st[k].lastAccessed
    ensures forall k :: k in r && k !in ids ==> r[k] == st[k]
  {
    map k | k in st :: if k in ids then st[k].(isHidden := false, isActive := false) else st[k]
  }

  /** Parking one more id updates that one entry. */
  lemma ParkExtend(st: States, ids: set<int>, k: int)
    requires k in st
    ensures Park(st, ids + {k}) == Park(st, ids)[k := st[k].(isHidden := false, isActive := false)]
  {
    var a := Park(st, ids + {k});
    var b := Park(st, ids)[k := st[k].(isHidden := false, isActive := false)];
    assert a.Keys == b.Keys;
    forall j | j in a ensures a[j] == b[j] { }
  }

  /** `cleanupTabStates`: the table restricted to the ids of live tabs. */
  function Prune(st: States, live: set<int>): (r: States)
    ensures r.Keys == st.Keys * live
    ensures forall k :: k in r ==> r[k] == st[k]
  {
    map k | k in st && k in live :: st[k]
  }
}
