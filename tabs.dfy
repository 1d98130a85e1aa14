/** The tab record and the inactive-tab suspender: what `suspend_tab` and
    `resume_tab` do to one tab, and what one tick of `check_inactive_tabs`
    does to all of them and to the `tab_last_used` table. */
module Tabs {
  import opened Wrappers
  import opened Text

  /** The page a suspended tab is sent to. */
  const Blank: string := "about:blank"

  /** What suspending puts in front of a tab's label. */
  const SuspendedPrefix: string := "[Suspended] "

  /** A tab is stale when strictly more seconds than this have passed since
      the time recorded for it. */
  const SuspendAfterSecs: int := 1800

  datatype Icon = NoIcon | SuspendedIcon | PinIcon

  /** One tab: the identity of its view, the URL it was last told to load,
      its label and icon in the strip, the `suspended` and `suspended_url`
      attributes `suspend_tab` attaches to the view (absent until then), and
      how many reloads have been requested of it. */
  datatype Tab = Tab(
    id: nat,
    url: string,
    tabText: string,
    icon: Icon,
    suspended: Option<bool>,
    suspendedUrl: Option<string>,
    reloads: nat)

  /** `suspended_url` is there exactly while `suspended` is true. */
  predicate MarkerConsistent(t: Tab) {
    t.suspendedUrl.Some? <==> t.suspended == Some(true)
  }

  /** A freshly opened tab. */
  function NewTab(id: nat, url: string, tabText: string): (t: Tab)
    ensures MarkerConsistent(t) && t.suspended.None?
  {
    Tab(id, url, tabText, NoIcon, None, None, 0)
  }

  predicate DistinctIds(tabs: seq<Tab>) {
    forall j, k :: 0 <= j < k < |tabs| ==> tabs[j].id != tabs[k].id
  }

  /** `suspend_tab`: only a tab that has never had the attribute is
      touched; it is sent to the blank page, remembers where it was, and is
      marked in the strip. */
  function Suspend(t: Tab): Tab {
    if t.suspended.Some? then t
    else t.(url := Blank, tabText := SuspendedPrefix + t.tabText, icon := SuspendedIcon,
            suspended := Some(true), suspendedUrl := Some(t.url))
  }

  /** `resume_tab`: a tab marked suspended goes back to its URL, keeps the
      marker set to false, and loses the icon and every `[Suspended] ` in its
      label. */
  function Resume(t: Tab): Tab
    requires MarkerConsistent(t)
  {
    if t.suspended == Some(true) then
      t.(url := t.suspendedUrl.value, tabText := RemoveAll(t.tabText, SuspendedPrefix), icon := NoIcon,
         suspended := Some(false), suspendedUrl := None)
    else t
  }

  /** A requested reload. */
  function Reloaded(t: Tab): Tab {
    t.(reloads := t.reloads + 1)
  }

  /** Every tab after one `reload()` each: only the reload counts change,
      so a suspended tab reloads the blank page and stays suspended. */
  function ReloadAll(tabs: seq<Tab>): (r: seq<Tab>)
    ensures |r| == |tabs|
    ensures forall k :: 0 <= k < |tabs| ==>
      r[k].reloads == tabs[k].reloads + 1 && r[k].(reloads := tabs[k].reloads) == tabs[k]
  {
    seq(|tabs|, k requires 0 <= k < |tabs| => Reloaded(tabs[k]))
  }

  /** Both transitions keep the tab's identity and the marker invariant. */
  lemma TransitionsKeepMarker(t: Tab)
    requires MarkerConsistent(t)
    ensures MarkerConsistent(Suspend(t)) && Suspend(t).id == t.id
    ensures MarkerConsistent(Resume(t)) && Resume(t).id == t.id
    ensures MarkerConsistent(Reloaded(t)) && Reloaded(t).id == t.id
  {
  }

  /** Suspending twice is suspending once, so the label carries the prefix
      once; a tab that was ever suspended, resumed ones included, is never
      suspended again, and resuming never removes the marker. */
  lemma SuspendIdempotent(t: Tab)
    requires MarkerConsistent(t)
    ensures Suspend(Suspend(t)) == Suspend(t)
    ensures t.suspended.None? ==> Suspend(Suspend(t)).tabText == SuspendedPrefix + t.tabText
    ensures t.suspended.Some? ==> Suspend(t) == t
    ensures Resume(t).suspended.Some? == t.suspended.Some?
  {
  }

  /** `resume_tab` on a tab not marked suspended changes nothing. */
  lemma ResumeOnlySuspended(t: Tab)
    requires MarkerConsistent(t) && t.suspended != Some(true)
    ensures Resume(t) == t
  {
  }

  /** Suspend then resume gives back the URL held before the suspend, drops
      the saved URL and the icon, and strips the prefix from the label; the
      label is the original one unless that already held `[Suspended] `. */
  lemma SuspendResumeRoundTrip(t: Tab)
    requires MarkerConsistent(t) && t.suspended.None?
    ensures Resume(Suspend(t)) ==
      t.(tabText := RemoveAll(t.tabText, SuspendedPrefix), icon := NoIcon, suspended := Some(false))
    ensures !Contains(t.tabText, SuspendedPrefix) ==> Resume(Suspend(t)).tabText == t.tabText
  {
    RemoveAllLeading(SuspendedPrefix, t.tabText);
    if !Contains(t.tabText, SuspendedPrefix) {
      RemoveAllAbsent(t.tabText, SuspendedPrefix);
    }
  }

  /** What one tick does to a tab: a tab other than the current one whose
      recorded time is more than `SuspendAfterSecs` seconds old is
      suspended; every other tab is left alone. */
  function TickedTab(t: Tab, isCurrent: bool, lastUsed: map<nat, int>, now: int): Tab {
    if !isCurrent && t.id in lastUsed && now - lastUsed[t.id] > SuspendAfterSecs then Suspend(t) else t
  }

  /** The tabs after one tick at time `now`. */
  function TickTabs(tabs: seq<Tab>, current: nat, lastUsed: map<nat, int>, now: int): (r: seq<Tab>)
    ensures |r| == |tabs|
  {
    seq(|tabs|, k requires 0 <= k < |tabs| => TickedTab(tabs[k], k == current, lastUsed, now))
  }

  /** `tab_last_used` after the tick has looked at the first `n` tabs: each
      tab other than the current one that has no entry yet gets `now`. */
  function Stamped(tabs: seq<Tab>, current: nat, lastUsed: map<nat, int>, n: nat, now: int): map<nat, int>
    requires n <= |tabs|
  {
    if n == 0 then lastUsed
    else
      var m := Stamped(tabs, current, lastUsed, n - 1, now);
      if n - 1 != current && tabs[n - 1].id !in m then m[tabs[n - 1].id := now] else m
  }

  /** `tab_last_used` after one tick at time `now`. */
  function TickStamps(tabs: seq<Tab>, current: nat, lastUsed: map<nat, int>, now: int): map<nat, int> {
    Stamped(tabs, current, lastUsed, |tabs|, now)
  }

  /** The tick adds an entry, holding `now`, for each tab other than the
      current one that had none, and never changes an existing entry. */
  lemma {:induction false} StampedSpec(tabs: seq<Tab>, current: nat, lastUsed: map<nat, int>, n: nat, now: int)
    requires n <= |tabs|
    ensures forall id :: id in Stamped(tabs, current, lastUsed, n, now) <==>
      id in lastUsed || exists k :: 0 <= k < n && k != current && tabs[k].id == id
    ensures forall id :: id in lastUsed ==> Stamped(tabs, current, lastUsed, n, now)[id] == lastUsed[id]
    ensures forall id :: id in Stamped(tabs, current, lastUsed, n, now) && id !in lastUsed ==>
      Stamped(tabs, current, lastUsed, n, now)[id] == now
  {
    if n > 0 {
      StampedSpec(tabs, current, lastUsed, n - 1, now);
    }
  }

  /** While the tick walks the strip, the table it has built so far holds
      the same entry for the next tab as the table it started from, since
      no earlier tab has the same identity. */
  lemma TickStep(tabs: seq<Tab>, current: nat, lastUsed: map<nat, int>, i: nat, now: int)
    requires i < |tabs| && DistinctIds(tabs)
    ensures var m := Stamped(tabs, current, lastUsed, i, now);
      (tabs[i].id in m <==> tabs[i].id in lastUsed) &&
      (tabs[i].id in m ==> m[tabs[i].id] == lastUsed[tabs[i].id]) &&
      TickedTab(tabs[i], i == current, m, now) == TickedTab(tabs[i], i == current, lastUsed, now) &&
      Stamped(tabs, current, lastUsed, i + 1, now) ==
        (if i != current && tabs[i].id !in m then m[tabs[i].id := now] else m)
  {
    StampedSpec(tabs, current, lastUsed, i, now);
  }

  /** One tick never touches the current tab, neither suspending it nor
      giving it an entry. */
  lemma TickSparesCurrent(tabs: seq<Tab>, current: nat, lastUsed: map<nat, int>, now: int)
    requires current < |tabs| && DistinctIds(tabs)
    ensures TickTabs(tabs, current, lastUsed, now)[current] == tabs[current]
    ensures tabs[current].id in TickStamps(tabs, current, lastUsed, now) <==> tabs[current].id in lastUsed
  {
    StampedSpec(tabs, current, lastUsed, |tabs|, now);
  }

  /** A tab other than the current one that has no entry is only given one,
      holding `now`; it is not suspended on that tick. */
  lemma TickFirstSightOnlyStamps(tabs: seq<Tab>, current: nat, lastUsed: map<nat, int>, now: int, k: nat)
    requires k < |tabs| && k != current && tabs[k].id !in lastUsed
    ensures TickTabs(tabs, current, lastUsed, now)[k] == tabs[k]
    ensures tabs[k].id in TickStamps(tabs, current, lastUsed, now)
    ensures TickStamps(tabs, current, lastUsed, now)[tabs[k].id] == now
  {
    StampedSpec(tabs, current, lastUsed, |tabs|, now);
  }

  /** A tab is changed by a tick only when it is not the current one, has an
      entry, and strictly more than `SuspendAfterSecs` seconds have passed
      since it; exactly `SuspendAfterSecs` is not enough. */
  lemma TickSuspendsOnlyStale(tabs: seq<Tab>, current: nat, lastUsed: map<nat, int>, now: int, k: nat)
    requires k < |tabs|
    ensures TickTabs(tabs, current, lastUsed, now)[k] != tabs[k] ==>
      k != current && tabs[k].id in lastUsed && now - lastUsed[tabs[k].id] > SuspendAfterSecs
    ensures tabs[k].id in lastUsed && now - lastUsed[tabs[k].id] == SuspendAfterSecs ==>
      TickTabs(tabs, current, lastUsed, now)[k] == tabs[k]
  {
  }

  /** Entries are never refreshed: a tab's recorded time is the time of the
      first tick that saw it in the background, however long it was the
      current tab since. */
  lemma TickNeverRefreshes(tabs: seq<Tab>, current: nat, lastUsed: map<nat, int>, now: int)
    ensures forall id :: id in lastUsed ==>
      id in TickStamps(tabs, current, lastUsed, now) && TickStamps(tabs, current, lastUsed, now)[id] == lastUsed[id]
  {
    StampedSpec(tabs, current, lastUsed, |tabs|, now);
  }

  /** A tick keeps the tabs' identities and the marker invariant. */
  lemma TickKeepsShape(tabs: seq<Tab>, current: nat, lastUsed: map<nat, int>, now: int)
    requires forall k :: 0 <= k < |tabs| ==> MarkerConsistent(tabs[k])
    ensures forall k :: 0 <= k < |tabs| ==>
      TickTabs(tabs, current, lastUsed, now)[k].id == tabs[k].id &&
      MarkerConsistent(TickTabs(tabs, current, lastUsed, now)[k])
  {
  }

  /** Two ticks with the same current tab: a background tab that was never
      suspended and has no entry at the first tick (time `t0`) is suspended
      by the second (time `t1`) exactly when `t1 - t0 > SuspendAfterSecs`. */
  lemma SuspendedOnSecondTickIffStale(tabs: seq<Tab>, current: nat, lastUsed: map<nat, int>,
                                      t0: int, t1: int, k: nat)
    requires k < |tabs| && k != current && tabs[k].id !in lastUsed && tabs[k].suspended.None?
    ensures var tabs1 := TickTabs(tabs, current, lastUsed, t0);
            var tabs2 := TickTabs(tabs1, current, TickStamps(tabs, current, lastUsed, t0), t1);
            tabs2[k] == (if t1 - t0 > SuspendAfterSecs then Suspend(tabs[k]) else tabs[k]) &&
            (tabs2[k].suspended == Some(true) <==> t1 - t0 > SuspendAfterSecs)
  {
    TickFirstSightOnlyStamps(tabs, current, lastUsed, t0, k);
  }
}
