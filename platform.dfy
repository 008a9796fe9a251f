/**
 * The browser as the extension's background worker sees it: a snapshot of
 * the tabs (as `chrome.tabs.query({})` lists them) and of the tab groups.
 * Every Chrome call the worker makes is a function over this value.
 */
module Platform {

  datatype Option<T> = None | Some(value: T)

  /** `chrome.tabGroups.TAB_GROUP_ID_NONE`: the group id of an ungrouped tab. */
  const NoGroup: int := -1

  /** The reserved title of the holding group. */
  const InactiveTitle: string := "Inactive Tabs"

  /**
   * One tab. `windowIsNormal` folds `chrome.windows.get(tab.windowId)` into
   * the tab: true when the lookup succeeds with type "normal", false when it
   * names another window type or fails (both make the worker skip the tab).
   * `lastAccessed` is 0 when Chrome leaves it unset.
   */
  datatype Tab = Tab(id: int, windowIsNormal: bool, active: bool, pinned: bool,
                     audible: bool, groupId: int, lastAccessed: int)

  datatype Group = Group(title: string, collapsed: bool)

  datatype Browser = Browser(tabs: seq<Tab>, groups: map<int, Group>)

  /** The platform calls of a grouping pass that may reject. */
  datatype PlatformCall = QueryTabs | CreateGroup | MoveTabs

  /** Chrome never lists two tabs with one id. */
  predicate UniqueIds(tabs: seq<Tab>)
  {
    forall i, j :: 0 <= i < j < |tabs| ==> tabs[i].id != tabs[j].id
  }

  /**
   * What Chrome guarantees of a snapshot: tab ids are unique, and no group
   * carries the id 0 or `NoGroup` (Chrome issues positive group ids).
   */
  predicate WellFormed(b: Browser)
  {
    UniqueIds(b.tabs) && 0 !in b.groups && NoGroup !in b.groups
  }

  /** A group id that `groupId && groupId !== -1` accepts. */
  predicate InSomeGroup(g: int)
  {
    g != 0 && g != NoGroup
  }

  /** `g` names a live group titled "Inactive Tabs". */
  predicate IsHolding(groups: map<int, Group>, g: int)
  {
    g in groups && groups[g].title == InactiveTitle
  }

  predicate HasHolding(groups: map<int, Group>)
  {
    exists g :: g in groups && IsHolding(groups, g)
  }

  function TabIds(tabs: seq<Tab>): (ids: set<int>)
    ensures forall t :: t in tabs ==> t.id in ids
    ensures forall k :: k in ids ==> exists t :: t in tabs && t.id == k
  {
    set t | t in tabs :: t.id
  }

  /** `chrome.tabs.get(id)`: the tab with that id, or None when the call rejects. */
  function FindTab(tabs: seq<Tab>, id: int): (r: Option<Tab>)
    ensures r.Some? ==> r.value in tabs && r.value.id == id
    ensures r.None? ==> forall t :: t in tabs ==> t.id != id
  {
    if tabs == [] then None
    else if tabs[0].id == id then Some(tabs[0])
    else FindTab(tabs[1..], id)
  }

  lemma {:induction false} FindTabAt(tabs: seq<Tab>, i: int)
    requires UniqueIds(tabs) && 0 <= i < |tabs|
    ensures FindTab(tabs, tabs[i].id) == Some(tabs[i])
  {
    if i > 0 {
      UniqueTail(tabs);
      assert tabs[0].id != tabs[i].id;
      assert tabs[1..][i - 1] == tabs[i];
      FindTabAt(tabs[1..], i - 1);
    }
  }

  /**
   * A non-empty set of ids has a member to pick, as a `for ... of` over keys
   * does. The loops over map keys call it before `var k :| k in keys`: the
   * verifier does not find a witness for that pick from `keys != {}` alone.
   */
  lemma SomeMember(s: set<int>)
    requires s != {}
    ensures exists k :: k in s
  {
    if forall k :: k !in s {
      assert false;
    }
  }

  lemma UniqueTail(tabs: seq<Tab>)
    requires UniqueIds(tabs) && tabs != []
    ensures UniqueIds(tabs[1..])
  {
    forall a, c | 0 <= a < c < |tabs[1..]| ensures tabs[1..][a].id != tabs[1..][c].id {
      assert tabs[1..][a] == tabs[a + 1] && tabs[1..][c] == tabs[c + 1];
    }
  }

  /**
   * `chrome.tabs.group({groupId: g, tabIds})`: every tab whose id is listed
   * joins `g`; nothing else about any tab changes.
   */
  function MoveToGroup(tabs: seq<Tab>, ids: set<int>, g: int): seq<Tab>
  {
    seq(|tabs|, i requires 0 <= i < |tabs| => if tabs[i].id in ids then tabs[i].(groupId := g) else tabs[i])
  }

  /** `chrome.tabs.ungroup([id])`: the tab with that id leaves its group. */
  function Ungroup(tabs: seq<Tab>, id: int): seq<Tab>
  {
    MoveToGroup(tabs, {id}, NoGroup)
  }

  /** Ungrouping a tab puts no tab into a group that had none before. */
  lemma UngroupAddsNoMember(tabs: seq<Tab>, id: int, g: int)
    requires g != NoGroup && GroupHasTabs(Ungroup(tabs, id), g)
    ensures GroupHasTabs(tabs, g)
  {
    var t :| t in Ungroup(tabs, id) && t.groupId == g;
    var i :| 0 <= i < |tabs| && Ungroup(tabs, id)[i] == t;
    assert tabs[i] in tabs;
  }

  /** Whether any tab is still in group `g` (`chrome.tabs.query({groupId})` is not empty). */
  predicate GroupHasTabs(tabs: seq<Tab>, g: int)
  {
    exists t :: t in tabs && t.groupId == g
  }
}
