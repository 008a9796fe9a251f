/**
 * The delayed ungroup queue: tab id to the time the tab was first
 * reactivated while in the holding group, and the platform effect of
 * releasing one queued tab.
 */
module ReleaseQueue {
  import opened Platform

  /** `UNGROUP_DELAY`: how long a reactivated tab waits before it is released. */
  const UngroupDelay: int := 10000

  type Queue = map<int, int>

  /** `if (!ungroupQueue.has(id)) ungroupQueue.set(id, now)`: the first timestamp wins. */
  function Enqueue(q: Queue, id: int, now: int): (r: Queue)
    ensures r.Keys == q.Keys + {id}
    ensures forall k :: k in q ==> r[k] == q[k]
    ensures id !in q ==> r[id] == now
  {
    if id in q then q else q[id := now]
  }

  /** The entries a drain at `now` keeps: those younger than `UngroupDelay`. */
  function Pending(q: Queue, now: int): (r: Queue)
    ensures forall k :: k in r <==> k in q && now - q[k] < UngroupDelay
    ensures forall k :: k in r ==> r[k] == q[k]
  {
    map k | k in q && now - q[k] < UngroupDelay :: q[k]
  }

  /** The entries a drain at `now` processes: those at least `UngroupDelay` old. */
  function Expired(q: Queue, now: int): (r: set<int>)
    ensures forall k :: k in r <==> k in q && now - q[k] >= UngroupDelay
    ensures r !! Pending(q, now).Keys && r + Pending(q, now).Keys == q.Keys
  {
    set k | k in q && now - q[k] >= UngroupDelay
  }

  /**
   * Reactivating tab `id` queues it only when `chrome.tabs.get` finds it in a
   * group (`groupId && groupId !== -1`) that `chrome.tabGroups.get` finds
   * titled "Inactive Tabs" (lines 503-515).
   */
  predicate InHoldingGroup(b: Browser, id: int)
    ensures InHoldingGroup(b, id) ==>
              exists t :: t in b.tabs && t.id == id && InSomeGroup(t.groupId) && IsHolding(b.groups, t.groupId)
    ensures (forall t :: t in b.tabs ==> t.id != id) ==> !InHoldingGroup(b, id)
  {
    var found := FindTab(b.tabs, id);
    found.Some? && InSomeGroup(found.value.groupId) && IsHolding(b.groups, found.value.groupId)
  }

  /** A drained entry is released only when its tab is also still the active one (line 281). */
  predicate ReleaseEligible(b: Browser, id: int)
  {
    InHoldingGroup(b, id) && FindTab(b.tabs, id).value.active
  }

  /** The tab at index `i` is active and sits in a holding group. */
  predicate EligibleAt(b: Browser, i: int)
    requires 0 <= i < |b.tabs|
  {
    b.tabs[i].active && InSomeGroup(b.tabs[i].groupId) && IsHolding(b.groups, b.tabs[i].groupId)
  }

  /** With unique ids, the lookups by id agree with the tab's own fields. */
  lemma EligibleAtIff(b: Browser, i: int)
    requires UniqueIds(b.tabs) && 0 <= i < |b.tabs|
    ensures InHoldingGroup(b, b.tabs[i].id) <==> InSomeGroup(b.tabs[i].groupId) && IsHolding(b.groups, b.tabs[i].groupId)
    ensures ReleaseEligible(b, b.tabs[i].id) <==> EligibleAt(b, i)
  {
    FindTabAt(b.tabs, i);
  }

  /** The tab at index `i` was drained (its id is in `done`) and eligible, so it is released. */
  predicate ReleasedAt(b: Browser, done: set<int>, i: int)
    requires 0 <= i < |b.tabs|
  {
    b.tabs[i].id in done && EligibleAt(b, i)
  }

  /**
   * What draining the ids `done` does to `b`, giving `b'`: the tabs and the
   * groups change as the two predicates below say.
   */
  ghost predicate DrainEffect(b: Browser, b': Browser, done: set<int>)
  {
    TabsDrained(b, b', done) && GroupsDrained(b, b', done)
  }

  /** Exactly the released tabs leave their group; nothing else about any tab changes. */
  ghost predicate TabsDrained(b: Browser, b': Browser, done: set<int>)
  {
    && |b'.tabs| == |b.tabs|
    && (forall i :: 0 <= i < |b.tabs| ==>
          b'.tabs[i] == if ReleasedAt(b, done, i) then b.tabs[i].(groupId := NoGroup) else b.tabs[i])
  }

  /**
   * No group appears or disappears; a group changes only by being collapsed,
   * and only when a tab was released from it; a group a tab was released
   * from is collapsed whenever tabs remain in it.
   */
  ghost predicate GroupsDrained(b: Browser, b': Browser, done: set<int>)
  {
    && b'.groups.Keys == b.groups.Keys
    && (forall g :: g in b.groups && b'.groups[g] != b.groups[g] ==>
          && b'.groups[g] == b.groups[g].(collapsed := true)
          && exists i :: 0 <= i < |b.tabs| && ReleasedAt(b, done, i) && b.tabs[i].groupId == g)
    && (forall i :: 0 <= i < |b.tabs| && ReleasedAt(b, done, i) && GroupHasTabs(b'.tabs, b.tabs[i].groupId) ==>
          b'.groups[b.tabs[i].groupId].collapsed)
  }

  /**
   * One drained entry, lines 277-300: when its tab is still active and in the
   * holding group, ungroup it and re-collapse the group if tabs remain in it;
   * when the tab is gone, not active or not in the holding group, leave the
   * browser as it was. No tab changes its id and no group its title.
   */
  function ReleaseStep(b: Browser, id: int): (r: Browser)
    ensures |r.tabs| == |b.tabs| && r.groups.Keys == b.groups.Keys
    ensures forall i :: 0 <= i < |b.tabs| ==> r.tabs[i].id == b.tabs[i].id
    ensures forall g :: g in b.groups ==> r.groups[g].title == b.groups[g].title
    ensures !ReleaseEligible(b, id) ==> r == b
  {
    if ReleaseEligible(b, id) then
      var g := FindTab(b.tabs, id).value.groupId;
      var tabs' := Ungroup(b.tabs, id);
      Browser(tabs', if GroupHasTabs(tabs', g) then b.groups[g := b.groups[g].(collapsed := true)] else b.groups)
    else b
  }

  /**
   * Releasing `id` has the effect of draining `{id}`, and it puts no tab into
   * a group it was not in.
   */
  lemma ReleaseStepEffect(b: Browser, id: int)
    requires WellFormed(b)
    ensures WellFormed(ReleaseStep(b, id))
    ensures DrainEffect(b, ReleaseStep(b, id), {id})
    ensures forall g :: g != NoGroup && GroupHasTabs(ReleaseStep(b, id).tabs, g) ==> GroupHasTabs(b.tabs, g)
  {
    var r := ReleaseStep(b, id);
    assert UniqueIds(r.tabs);
    if ReleaseEligible(b, id) {
      var j :| 0 <= j < |b.tabs| && b.tabs[j] == FindTab(b.tabs, id).value;
      ReleaseAtEffect(b, j);
    } else {
      forall i | 0 <= i < |b.tabs| ensures !ReleasedAt(b, {id}, i) {
        if b.tabs[i].id == id {
          FindTabAt(b.tabs, i);
        }
      }
    }
  }

  /** `ReleaseStepEffect` for an eligible tab, found at index `j`. */
  lemma ReleaseAtEffect(b: Browser, j: int)
    requires WellFormed(b) && 0 <= j < |b.tabs| && EligibleAt(b, j)
    ensures DrainEffect(b, ReleaseStep(b, b.tabs[j].id), {b.tabs[j].id})
    ensures forall g :: g != NoGroup && GroupHasTabs(ReleaseStep(b, b.tabs[j].id).tabs, g) ==> GroupHasTabs(b.tabs, g)
  {
    var id, g := b.tabs[j].id, b.tabs[j].groupId;
    FindTabAt(b.tabs, j);
    var r := ReleaseStep(b, id);
    assert r.tabs == Ungroup(b.tabs, id);
    assert r.groups == if GroupHasTabs(r.tabs, g) then b.groups[g := b.groups[g].(collapsed := true)] else b.groups;
    forall i | 0 <= i < |b.tabs|
      ensures ReleasedAt(b, {id}, i) <==> i == j
    {
      if i != j && b.tabs[i].id == id {
        assert false;
      }
    }
    forall g' | g' != NoGroup && GroupHasTabs(r.tabs, g') ensures GroupHasTabs(b.tabs, g') {
      UngroupAddsNoMember(b.tabs, id, g');
    }
  }

  /**
   * Draining one more id `k` after `done` has the effect of draining
   * `done + {k}`: the eligibility of `k`'s tab is judged on the browser the
   * earlier releases left, which agrees with the original on it.
   */
  lemma DrainStep(b: Browser, cur: Browser, done: set<int>, k: int)
    requires WellFormed(b) && WellFormed(cur) && DrainEffect(b, cur, done) && k !in done
    ensures WellFormed(ReleaseStep(cur, k))
    ensures DrainEffect(b, ReleaseStep(cur, k), done + {k})
  {
    ReleaseStepEffect(cur, k);
    DrainStepAgrees(b, cur, done, k);
    DrainStepGroups(b, cur, done, k);
  }

  /** The groups part of `DrainStep`. */
  lemma DrainStepGroups(b: Browser, cur: Browser, done: set<int>, k: int)
    requires |cur.tabs| == |b.tabs| && GroupsDrained(b, cur, done)
    requires GroupsDrained(cur, ReleaseStep(cur, k), {k})
    requires forall g :: g != NoGroup && GroupHasTabs(ReleaseStep(cur, k).tabs, g) ==> GroupHasTabs(cur.tabs, g)
    requires forall i :: 0 <= i < |b.tabs| && ReleasedAt(cur, {k}, i) ==> cur.tabs[i] == b.tabs[i]
    requires forall i :: 0 <= i < |b.tabs| ==>
               (ReleasedAt(b, done + {k}, i) <==> ReleasedAt(b, done, i) || ReleasedAt(cur, {k}, i))
    ensures GroupsDrained(b, ReleaseStep(cur, k), done + {k})
  {
    var r := ReleaseStep(cur, k);
    forall g | g in b.groups && r.groups[g] != b.groups[g]
      ensures r.groups[g] == b.groups[g].(collapsed := true)
      ensures exists i :: 0 <= i < |b.tabs| && ReleasedAt(b, done + {k}, i) && b.tabs[i].groupId == g
    {
      if cur.groups[g] != b.groups[g] {
        var i :| 0 <= i < |b.tabs| && ReleasedAt(b, done, i) && b.tabs[i].groupId == g;
        assert ReleasedAt(b, done + {k}, i);
      } else {
        var i :| 0 <= i < |cur.tabs| && ReleasedAt(cur, {k}, i) && cur.tabs[i].groupId == g;
        assert ReleasedAt(b, done + {k}, i) && b.tabs[i].groupId == g;
      }
    }
    forall i | 0 <= i < |b.tabs| && ReleasedAt(b, done + {k}, i) && GroupHasTabs(r.tabs, b.tabs[i].groupId)
      ensures r.groups[b.tabs[i].groupId].collapsed
    {
      if !ReleasedAt(cur, {k}, i) {
        assert GroupHasTabs(cur.tabs, b.tabs[i].groupId);
      }
    }
  }

  /**
   * The tab `k` names is untouched by the releases of `done`, so releasing it
   * now is releasing it on the original browser.
   */
  lemma DrainStepAgrees(b: Browser, cur: Browser, done: set<int>, k: int)
    requires WellFormed(b) && DrainEffect(b, cur, done) && k !in done
    ensures forall i :: 0 <= i < |b.tabs| && ReleasedAt(cur, {k}, i) ==> cur.tabs[i] == b.tabs[i]
    ensures forall i :: 0 <= i < |b.tabs| ==>
              (ReleasedAt(b, done + {k}, i) <==> ReleasedAt(b, done, i) || ReleasedAt(cur, {k}, i))
  {
    forall i | 0 <= i < |b.tabs|
      ensures ReleasedAt(cur, {k}, i) ==> cur.tabs[i] == b.tabs[i]
      ensures ReleasedAt(b, done + {k}, i) <==> ReleasedAt(b, done, i) || ReleasedAt(cur, {k}, i)
    {
      if b.tabs[i].id == k {
        var g := b.tabs[i].groupId;
        if g in b.groups && cur.groups[g] != b.groups[g] {
          assert cur.groups[g].title == b.groups[g].title;
        }
      } else {
        assert cur.tabs[i].id == b.tabs[i].id;
      }
    }
  }
}
