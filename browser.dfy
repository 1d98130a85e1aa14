/** The browser window: its tabs, the suspender's `tab_last_used` table, the
    engine flags, the performance profiles, the search engines, the pinned
    positions and the dark-mode switch, and the operations that change
    them. */
module BrowserWindow {
  import opened Wrappers
  import opened Text
  import opened Tabs
  import opened TabStrip
  import opened Navigation
  import opened Performance
  import opened Pinning

  /** Removing a tab keeps the tab identities distinct. */
  lemma RemoveAtKeepsIds(s: seq<Tab>, i: nat)
    requires i < |s| && DistinctIds(s)
    ensures |RemoveAt(s, i)| == |s| - 1 && DistinctIds(RemoveAt(s, i))
    ensures forall k :: 0 <= k < |s| - 1 ==> RemoveAt(s, i)[k] == s[if k < i then k else k + 1]
  {
  }

  class Browser {
    /** The tabs in strip order; `current` is the index of the current one. */
    var tabs: seq<Tab>
    var current: nat
    /** The identity the next opened tab gets. */
    var nextId: nat
    /** `tab_last_used`: tab identity to the second it was first seen in
        the background. */
    var lastUsed: map<nat, int>
    /** The engine flags written so far. */
    var flags: map<Flag, bool>
    /** `performance_profiles`. */
    var profiles: map<string, Profile>
    /** `search_engines` and `current_search_engine`. */
    var engines: map<string, string>
    var currentEngine: string
    /** The strip's `pinned_tabs` positions. */
    var pinned: set<int>
    /** `dark_mode_enabled`, absent until the first toggle. */
    var darkMode: Option<bool>

    ghost predicate Valid()
      reads this
    {
      |tabs| >= 1 && current < |tabs| && DistinctIds(tabs) &&
      (forall k :: 0 <= k < |tabs| ==> tabs[k].id < nextId && MarkerConsistent(tabs[k])) &&
      (forall id :: id in lastUsed ==> id < nextId)
    }

    /** The window as `__init__` leaves it: the engine and the engine table
        come from the settings store when it holds them, one tab shows the
        engine's homepage under the engine's name, the suspender's table is
        empty and the built-in profiles are installed. */
    constructor (storedEngine: Option<string>, storedEngines: Option<map<string, string>>)
      ensures Valid()
      ensures currentEngine == storedEngine.GetOr("Google")
      ensures engines == storedEngines.GetOr(DefaultSearchEngines())
      ensures tabs == [NewTab(0, EngineHomepage(currentEngine), currentEngine)] && current == 0
      ensures lastUsed == map[] && flags == InitialFlags() && profiles == DefaultProfiles()
      ensures pinned == {} && darkMode.None?
    {
      currentEngine := storedEngine.GetOr("Google");
      engines := storedEngines.GetOr(DefaultSearchEngines());
      flags := InitialFlags();
      var engine := storedEngine.GetOr("Google");
      tabs := [NewTab(0, EngineHomepage(engine), engine)];
      current := 0;
      nextId := 1;
      lastUsed := map[];
      profiles := DefaultProfiles();
      pinned := {};
      darkMode := None;
    }

    /** `add_new_tab`: a new tab at the end of the strip becomes current; it
        loads `url`, or the current engine's homepage when none is given. */
    method AddNewTab(url: Option<string>, tabText: string)
      requires Valid()
      modifies this`tabs, this`current, this`nextId
      ensures Valid()
      ensures tabs == old(tabs) + [NewTab(old(nextId), url.GetOr(EngineHomepage(currentEngine)), tabText)]
      ensures current == |tabs| - 1 && nextId == old(nextId) + 1
      ensures tabs[current].id !in lastUsed
    {
      var t := NewTab(nextId, url.GetOr(EngineHomepage(currentEngine)), tabText);
      tabs := tabs + [t];
      current := |tabs| - 1;
      nextId := nextId + 1;
    }

    /** A tab switch: `current_tab_changed` only refreshes the address bar
        and the title, so `tab_last_used` is not touched and a tab's entry
        is not renewed by using it. */
    method SelectTab(i: int)
      requires Valid()
      modifies this`current
      ensures Valid()
      ensures current == if 0 <= i < |tabs| then i else old(current)
    {
      if 0 <= i < |tabs| {
        current := i;
      }
    }

    /** `close_current_tab(i)`: the last tab is never closed, and a position
        with no tab is ignored; otherwise tab `i` leaves the strip. The
        current tab stays current unless it was the one closed, in which
        case its right neighbour (or the new last tab) becomes current. The
        closed tab's `tab_last_used` entry stays. */
    method CloseCurrentTab(i: int)
      requires Valid()
      modifies this`tabs, this`current
      ensures Valid()
      ensures |old(tabs)| < 2 || !(0 <= i < |old(tabs)|) ==> tabs == old(tabs) && current == old(current)
      ensures |old(tabs)| >= 2 && 0 <= i < |old(tabs)| ==>
        tabs == RemoveAt(old(tabs), i) && current == CurrentAfterRemove(old(current), i, |old(tabs)| - 1)
      ensures i != old(current) ==> tabs[current] == old(tabs)[old(current)]
    {
      if |tabs| < 2 || !(0 <= i < |tabs|) {
        return;
      }
      RemoveKeepsCurrent(tabs, i, current);
      RemoveAtKeepsIds(tabs, i);
      current := CurrentAfterRemove(current, i, |tabs| - 1);
      tabs := RemoveAt(tabs, i);
    }

    /** `navigate_to_url`: the current tab is sent where the address-bar text
        leads; when the engine lookup or the template raises, nothing
        changes. */
    method NavigateToUrl(input: string, encode: string -> string) returns (r: Result<string, NavError>)
      requires Valid()
      modifies this`tabs
      ensures Valid()
      ensures r == AddressBarTarget(input, engines, currentEngine, encode)
      ensures r.Ok? ==> tabs == old(tabs)[current := old(tabs)[current].(url := r.value)]
      ensures r.Err? ==> tabs == old(tabs)
    {
      r := AddressBarTarget(input, engines, currentEngine, encode);
      if r.Ok? {
        tabs := tabs[current := tabs[current].(url := r.value)];
      }
    }

    /** `change_search_engine`: any name is taken, even one the table lacks. */
    method ChangeSearchEngine(name: string)
      modifies this`currentEngine
      ensures currentEngine == name
    {
      currentEngine := name;
    }

    /** `add_search_engine`: the engine is stored, replacing one of the same
        name, exactly when the name and the template pass the check. */
    method AddSearchEngine(name: string, template: string) returns (accepted: bool)
      modifies this`engines
      ensures accepted == AcceptsSearchEngine(name, template)
      ensures accepted ==> engines == old(engines)[name := template]
      ensures !accepted ==> engines == old(engines)
    {
      accepted := |name| > 0 && |template| > 0 && Contains(template, "{}");
      if accepted {
        engines := engines[name := template];
      }
    }

    /** `suspend_tab(tab, index)`. */
    method SuspendTab(index: nat)
      requires Valid() && index < |tabs|
      modifies this`tabs
      ensures Valid()
      ensures tabs == old(tabs)[index := Suspend(old(tabs)[index])]
    {
      var t := tabs[index];
      if t.suspended.None? {
        t := t.(url := Blank, tabText := SuspendedPrefix + t.tabText, icon := SuspendedIcon,
                suspended := Some(true), suspendedUrl := Some(t.url));
      }
      TransitionsKeepMarker(tabs[index]);
      tabs := tabs[index := t];
    }

    /** `resume_tab(tab, index)`. */
    method ResumeTab(index: nat)
      requires Valid() && index < |tabs|
      modifies this`tabs
      ensures Valid()
      ensures tabs == old(tabs)[index := Resume(old(tabs)[index])]
    {
      var t := tabs[index];
      if t.suspended == Some(true) {
        t := t.(url := t.suspendedUrl.value, tabText := RemoveAll(t.tabText, SuspendedPrefix),
                icon := NoIcon, suspended := Some(false), suspendedUrl := None);
      }
      TransitionsKeepMarker(tabs[index]);
      tabs := tabs[index := t];
    }

    /** `check_inactive_tabs` at second `now`: one tick of the suspender. */
    method CheckInactiveTabs(now: int)
      requires Valid()
      modifies this`tabs, this`lastUsed
      ensures Valid()
      ensures tabs == TickTabs(old(tabs), current, old(lastUsed), now)
      ensures lastUsed == TickStamps(old(tabs), current, old(lastUsed), now)
    {
      var i := 0;
      while i < |tabs|
        invariant Valid() && |tabs| == |old(tabs)|
        invariant 0 <= i <= |tabs|
        invariant forall k :: 0 <= k < i ==> tabs[k] == TickedTab(old(tabs)[k], k == current, old(lastUsed), now)
        invariant forall k :: i <= k < |tabs| ==> tabs[k] == old(tabs)[k]
        invariant lastUsed == Stamped(old(tabs), current, old(lastUsed), i, now)
      {
        TickStep(old(tabs), current, old(lastUsed), i, now);
        VisitTab(i, now);
        assert tabs[i] == TickedTab(old(tabs)[i], i == current, old(lastUsed), now);
        i := i + 1;
      }
    }

    /** One turn of the loop in `check_inactive_tabs`: a background tab with
        no entry gets one holding `now`; one whose entry is more than
        `SuspendAfterSecs` seconds old is suspended. */
    method VisitTab(i: nat, now: int)
      requires Valid() && i < |tabs|
      modifies this`tabs, this`lastUsed
      ensures Valid()
      ensures tabs == old(tabs)[i := TickedTab(old(tabs)[i], i == current, old(lastUsed), now)]
      ensures lastUsed ==
        if i != current && old(tabs)[i].id !in old(lastUsed) then old(lastUsed)[old(tabs)[i].id := now]
        else old(lastUsed)
    {
      if i != current {
        var id := tabs[i].id;
        if id !in lastUsed {
          lastUsed := lastUsed[id := now];
        } else if now - lastUsed[id] > SuspendAfterSecs {
          SuspendTab(i);
        }
      }
    }

    /** The loop every toggle and profile ends with: each tab reloads. */
    method ReloadAllTabs()
      requires Valid()
      modifies this`tabs
      ensures Valid()
      ensures tabs == ReloadAll(old(tabs))
    {
      var i := 0;
      while i < |tabs|
        invariant Valid() && |tabs| == |old(tabs)|
        invariant 0 <= i <= |tabs|
        invariant forall k :: 0 <= k < i ==> tabs[k] == Reloaded(old(tabs)[k])
        invariant forall k :: i <= k < |tabs| ==> tabs[k] == old(tabs)[k]
      {
        tabs := tabs[i := Reloaded(tabs[i])];
        i := i + 1;
      }
    }

    /** `apply_performance_profile`: a known profile writes its four flags
        and every tab reloads; an unknown name does nothing. */
    method ApplyPerformanceProfile(name: string)
      requires Valid()
      modifies this`flags, this`tabs
      ensures Valid()
      ensures name in profiles ==> flags == WithProfile(old(flags), profiles[name]) && tabs == ReloadAll(old(tabs))
      ensures name !in profiles ==> flags == old(flags) && tabs == old(tabs)
    {
      if name in profiles {
        var p := profiles[name];
        flags := flags[WebGL := p.webgl][Javascript := p.javascript][AutoLoadImages := p.images]
          [ScrollAnimator := p.animations];
        ReloadAllTabs();
      }
    }

    /** `toggle_performance_mode`. */
    method TogglePerformanceMode(state: int)
      requires Valid()
      modifies this`flags, this`tabs
      ensures Valid()
      ensures flags == WithPerformanceMode(old(flags), state) && tabs == ReloadAll(old(tabs))
    {
      flags := flags[WebGL := !Checked(state)][JavascriptCanOpenWindows := !Checked(state)]
        [ScrollAnimator := !Checked(state)];
      ReloadAllTabs();
    }

    /** `toggle_image_loading`. */
    method ToggleImageLoading(state: int)
      requires Valid()
      modifies this`flags, this`tabs
      ensures Valid()
      ensures flags == WithImageLoading(old(flags), state) && tabs == ReloadAll(old(tabs))
    {
      flags := flags[AutoLoadImages := Checked(state)];
      ReloadAllTabs();
    }

    /** `toggle_dark_mode`: the switch starts off and each call flips it. */
    method ToggleDarkMode()
      modifies this`darkMode
      ensures darkMode == Some(!old(darkMode).GetOr(false))
    {
      var enabled := if darkMode.Some? then darkMode.value else false;
      darkMode := Some(!enabled);
    }

    /** `pin_tab(index)`. */
    method PinTab(index: int)
      requires Valid()
      modifies this`tabs, this`current, this`pinned
      ensures Valid()
      ensures PinState(tabs, current, pinned) == PinToggle(PinState(old(tabs), old(current), old(pinned)), index)
    {
      if index in pinned {
        pinned := pinned - {index};
        if 0 <= index < |tabs| {
          tabs := tabs[index := tabs[index].(icon := NoIcon)];
        }
      } else {
        pinned := pinned + {index};
        if 0 <= index < |tabs| {
          var marked := tabs[index := tabs[index].(icon := PinIcon)];
          MoveToFrontKeepsIds(marked, index);
          MoveToFrontPermutes(marked, index, current);
          tabs := MoveToFront(marked, index);
          current := IndexAfterMoveToFront(current, index);
        }
      }
    }
  }
}
