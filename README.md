# ZiBrowser tab lifecycle and resource scheduler

This project is a Dafny model of the core of ZiBrowser. ZiBrowser is a PyQt5 web browser contained in a single file, `ZiBrowser.py`. The model covers five parts:

- **The inactive-tab suspender** (`tabs.dfy`, `browser.dfy`). A timer fires every 60 000 ms and calls `check_inactive_tabs`. The first tick that sees a background tab records the time in `tab_last_used`. A later tick suspends the tab when more than 1800 seconds have passed since that recorded time. `suspend_tab` sends the tab to `about:blank`, remembers its URL, and marks its label and icon. `resume_tab` undoes that.
- **Performance settings** (`profiles.dfy`, `browser.dfy`). This covers:
  - the engine flags written at start-up;
  - the three built-in profiles, `balanced`, `performance` and `minimal`;
  - `apply_performance_profile`;
  - the two memory-manager check boxes.

  `apply_performance_profile` and the two check-box handlers end by reloading every tab. The start-up writes and the profile table do not reload anything.
- **The address bar and search engines** (`navigation.dfy`, `text.dfy`). Input is classified as a URL, a domain name or a search. A search fills the current engine's template with Python's `str.format`. Custom engines are added through `add_search_engine`, and each engine has a homepage.
- **The tab strip** (`tab_strip.dfy`, `pinning.dfy`, `browser.dfy`). This covers opening, selecting and closing tabs, and `pin_tab`. Qt's index rules are written out:
  - `removeTab` makes the right-hand neighbour current;
  - `moveTab` keeps the current tab current;
  - out-of-range positions are ignored.
- **The request interceptor** (`ad_blocker.dfy`) and the naming of JavaScript console levels (`console.dfy`).

The browser's mutable state is `BrowserWindow.Browser`, a class with these fields:

- tabs and the current index;
- `tab_last_used`, keyed by tab identity;
- the engine flag map;
- the profiles;
- the search-engine table and the current engine;
- the pinned positions;
- the dark-mode switch.

Its methods are proved against pure specification functions, and the properties of those functions are proved as lemmas. Times are whole seconds, passed in as `now`. The percent-encoding of search terms is a parameter, `encode`.

Behaviour worth knowing, all of it modelled as the code has it:

- **Threshold.** A tab is suspended only when strictly more than 1800 seconds have passed (`> 1800`, line 753). Exactly 1800 seconds is not enough.
- **Start of the idle period.** It runs from the first tick that saw the tab in the background, not from when the tab was opened (lines 751-752).
- **Idle time is never refreshed.** Selecting a tab does not refresh its time (`current_tab_changed`, lines 406-409). An entry is never updated once written.
- **No automatic resume.** Nothing in the program calls `resume_tab`.
- **Suspension happens at most once.** `suspend_tab` only acts on a tab that has never had a `suspended` attribute. `resume_tab` leaves that attribute in place, set to `False`, so a resumed tab is never suspended again.
- **Unknown profiles.** An unknown profile name is silently ignored (line 821).
- **Closed tabs.** Closing a tab leaves its `tab_last_used` entry in place.
- **Suspended tabs can move.** A suspended tab need not stay at `about:blank`, because the user can navigate it. What always holds is `Tabs.MarkerConsistent`: a saved URL exists exactly while `suspended` is true.

## Model

| member | source | states |
|---|---|---|
| AdBlocking.BlocksIff | ZiBrowser.py:16-24 | a request is blocked iff one of the seven ad fragments occurs somewhere in its lower-cased URL |
| AdBlocking.BlocksIgnoresCase | ZiBrowser.py:23 | matching is case-insensitive: a URL is blocked exactly when its lower-cased form is |
| AdBlocking.UpperCaseAdHostBlocked | ZiBrowser.py:21-24 | an instance: `http://ADS.x` is blocked |
| AdBlocking.UploadHostBlocked | ZiBrowser.py:16-24 | matching is on substrings: `http://uploads.x` is blocked because `uploads.` contains `ads.` |
| Text.LowerFolds | ZiBrowser.py:23 | `url.lower()` leaves no ASCII capital, lower-casing twice is lower-casing once, and a string without capitals is unchanged |
| Text.RemovePrefixRestores | ZiBrowser.py:772-773 | removing every `[Suspended] ` from `"[Suspended] " + s` gives `s` back when `s` does not itself hold the prefix |
| Text.FormatOnePlaceholder | ZiBrowser.py:431-432 | `(pre + "{}" + post).format(arg) == pre + arg + post` for brace-free `pre` and `post` |
| Text.FormatTwoPlaceholdersFails | ZiBrowser.py:431-432 | a template with two `{}` fields raises an index error when formatted with one argument |
| Navigation.DirectTargetIsStable | ZiBrowser.py:421-434 | input with an explicit scheme, or with a dot and no space, always loads; what loads starts with a scheme and is classified as itself when typed again |
| Navigation.SearchFillsTemplate | ZiBrowser.py:429-434 | any other input loads the current engine's template with the encoded term in the `{}` slot |
| Navigation.DefaultEnginesAccepted | ZiBrowser.py:44-50 | every built-in engine template would pass the `add_search_engine` check |
| Navigation.AcceptedTemplateCanRaise | ZiBrowser.py:870-877 | any template with two `{}` slots, brace-free before the second, passes the check under a non-empty name, and every search with it (any input that is neither a URL nor a domain) raises an index error |
| Navigation.EngineHomepage | ZiBrowser.py:1048-1063 | every homepage starts with a scheme; an engine name outside the five built-in ones gets Google's homepage |
| Tabs.NewTab | ZiBrowser.py:269-282 | a new tab has no suspension marker and satisfies the marker invariant |
| Tabs.ReloadAll | ZiBrowser.py:729-731 | a reload of every tab raises each reload count by one and changes nothing else, suspended tabs included |
| Tabs.TransitionsKeepMarker | ZiBrowser.py:756-773 | suspend, resume and reload keep a tab's identity and the marker invariant |
| Tabs.SuspendIdempotent | ZiBrowser.py:756-764 | suspending twice is the same as suspending once, so the prefix is added once; a tab with any `suspended` marker is never changed; resuming never removes the marker |
| Tabs.ResumeOnlySuspended | ZiBrowser.py:766-767 | `resume_tab` on a tab not marked suspended changes nothing |
| Tabs.SuspendResumeRoundTrip | ZiBrowser.py:756-773 | suspend then resume gives back the URL held before the suspend, drops the icon and saved URL, leaves `suspended` false, and restores the label when it held no prefix |
| Tabs.StampedSpec | ZiBrowser.py:748-752 | after a tick, `tab_last_used` holds exactly the old entries plus one for each background tab; old entries keep their values and new ones hold `now` |
| Tabs.TickStep | ZiBrowser.py:748-754 | while the loop runs, the table built so far has the same entry for the next tab as the table it started from |
| Tabs.TickSparesCurrent | ZiBrowser.py:745-750 | a tick neither suspends the current tab nor gives it an entry |
| Tabs.TickFirstSightOnlyStamps | ZiBrowser.py:751-752 | a background tab without an entry only gets one, holding `now`, and is not suspended on that tick |
| Tabs.TickSuspendsOnlyStale | ZiBrowser.py:753-754 | a tick changes a tab only if the tab is in the background, has an entry, and more than 1800 seconds have passed since it; exactly 1800 is not enough |
| Tabs.TickNeverRefreshes | ZiBrowser.py:751-752 | a tick never changes an existing entry |
| Tabs.TickKeepsShape | ZiBrowser.py:744-754 | a tick keeps every tab's identity and the marker invariant |
| Tabs.SuspendedOnSecondTickIffStale | ZiBrowser.py:744-754 | a fresh background tab first seen at `t0` is suspended by a tick at `t1` iff `t1 - t0 > 1800`, and is then exactly `Suspend` of it |
| TabStrip.RemoveKeepsCurrent | ZiBrowser.py:411-415 | after `removeTab(i)` the current index is in range, and it still names the same tab when tab `i` was not current |
| TabStrip.RemoveAtKeepsOthers | ZiBrowser.py:411-415 | `removeTab(i)` removes exactly one tab, tab `i`, and keeps the others |
| TabStrip.MoveToFrontPermutes | ZiBrowser.py:627 | `moveTab(i, 0)` puts tab `i` first and permutes the strip; every tab, the current one included, is found at its new index |
| Pinning.MoveToFrontKeepsIds | ZiBrowser.py:627 | moving a tab to the front keeps tab identities distinct and says where each one came from |
| Pinning.PinMovesToFront | ZiBrowser.py:617-627 | pinning an unrecorded position that holds a tab records it, moves that tab to the front with the pin icon, and keeps the same tab current |
| Pinning.PinTwiceClearsNeighbour | ZiBrowser.py:617-627 | calling `pin_tab(i)` twice for `i > 0` restores the set, but the pinned tab keeps its icon and the cleared icon belongs to its former left neighbour |
| Performance.WithProfileIsExact | ZiBrowser.py:820-826 | applying a profile sets exactly its four flags to its values and leaves every other flag as it was |
| Performance.LastProfileWins | ZiBrowser.py:820-826 | applying `p` then `q` gives the same flags as applying `q` alone |
| Performance.DefaultProfilesTable | ZiBrowser.py:798-818 | there are exactly three built-in profiles; `minimal` turns all four flags off and `balanced` turns them all on |
| Performance.WithPerformanceMode | ZiBrowser.py:725-728 | the three flags become the negation of the box state, and nothing else changes |
| Performance.WithImageLoading | ZiBrowser.py:733-734 | image loading follows the box state, and nothing else changes |
| JsConsole.LevelNameIff | ZiBrowser.py:1041-1042 | each of `Info`, `Warning` and `Error` names exactly one level, 0, 1 and 2 respectively |
| JsConsole.ReportedLevels | ZiBrowser.py:1041-1046 | a reported level is never named `Info`, and `Warning` and `Error` are always reported |
| AdBlocking.AnyIn | ZiBrowser.py:23 | `any(ad in s for ad in frags)`, tried left to right |
| AdBlocking.Blocks | ZiBrowser.py:21-24 | `interceptRequest` blocks a request exactly when some ad fragment is in its lower-cased URL |
| Text.StartsWith | ZiBrowser.py:425 | `s.startswith(p)` |
| Text.Contains | ZiBrowser.py:427 | the substring test `sub in s` |
| Text.RemoveAll | ZiBrowser.py:773 | `s.replace(p, "")`: non-overlapping occurrences removed from the left |
| Text.Format | ZiBrowser.py:432 | `template.format(arg)` with one positional argument, and its index, numbering and brace errors |
| Text.FormatFrom | ZiBrowser.py:432 | the left-to-right scan behind `Format`, carrying the field numbering seen so far |
| Navigation.DefaultSearchEngines | ZiBrowser.py:44-50 | the five built-in engine templates |
| Navigation.AddressBarTarget | ZiBrowser.py:421-434 | the URL `navigate_to_url` loads for the address-bar text, or the `KeyError` or format error it raises |
| Navigation.AcceptsSearchEngine | ZiBrowser.py:871 | the `add_search_engine` test: non-empty name, non-empty template containing `{}` |
| Navigation.EngineHomepageTable | ZiBrowser.py:1048-1063 | the homepage for each of the five engine names, Google's otherwise |
| Tabs.Suspend | ZiBrowser.py:756-764 | `suspend_tab` on one tab: only a tab without the marker is sent to the blank page, remembers its URL and gets the prefix and icon |
| Tabs.Resume | ZiBrowser.py:766-773 | `resume_tab` on one tab: a tab marked suspended gets its URL back, the marker becomes false, the saved URL and icon go and the prefix is removed from the label |
| Tabs.Reloaded | ZiBrowser.py:731 | one `reload()` request |
| Tabs.TickedTab | ZiBrowser.py:750-754 | one tab after a tick: suspended when in the background, recorded, and more than 1800 seconds old |
| Tabs.TickTabs | ZiBrowser.py:744-754 | every tab after one tick |
| Tabs.Stamped | ZiBrowser.py:748-752 | `tab_last_used` after the loop has looked at the first `n` tabs |
| Tabs.TickStamps | ZiBrowser.py:744-754 | `tab_last_used` after one tick |
| Performance.InitialFlags | ZiBrowser.py:113-123 | the flags written at start-up, in order, so WebGL ends up off |
| Performance.DefaultProfiles | ZiBrowser.py:798-818 | the three built-in profiles |
| Performance.WithProfile | ZiBrowser.py:823-826 | the flags after a profile's four writes |
| Performance.Checked | ZiBrowser.py:726 | a check-box state read as a Python truth value |
| Pinning.PinToggle | ZiBrowser.py:617-627 | `pin_tab(index)` on the strip, the current index and the set of pinned positions |
| TabStrip.RemoveAt | ZiBrowser.py:415 | the strip after `removeTab(i)` |
| TabStrip.CurrentAfterRemove | ZiBrowser.py:415 | the current index after `removeTab(i)` |
| TabStrip.MoveToFront | ZiBrowser.py:627 | the strip after `moveTab(i, 0)` |
| TabStrip.IndexAfterMoveToFront | ZiBrowser.py:627 | where a tab's index goes under `moveTab(i, 0)` |
| JsConsole.LevelName | ZiBrowser.py:1041-1042 | the level's name from the table, `Unknown` outside it |
| JsConsole.Reported | ZiBrowser.py:1044 | the `level > 0` filter |
| BrowserWindow.Browser.VisitTab | ZiBrowser.py:749-754 | one turn of the tick loop: the tab becomes `TickedTab` of itself, and a background tab with no entry gets one holding `now` |
| BrowserWindow.Browser.constructor | ZiBrowser.py:227-249 | the engine and table come from the store or the defaults; one tab shows the engine's homepage; the suspender table is empty; the built-in profiles are installed |
| BrowserWindow.Browser.AddNewTab | ZiBrowser.py:269-282 | a new tab, loading the given URL or the homepage, is appended and becomes current; it has no `tab_last_used` entry yet |
| BrowserWindow.Browser.SelectTab | ZiBrowser.py:406-409 | a tab switch changes only the current index and never touches `tab_last_used` |
| BrowserWindow.Browser.CloseCurrentTab | ZiBrowser.py:411-415 | the last tab is never closed and an invalid index is ignored; otherwise tab `i` is removed and the current tab stays current unless it was the one closed |
| BrowserWindow.Browser.NavigateToUrl | ZiBrowser.py:421-434 | the current tab's URL becomes the address-bar target; on a raising lookup or format nothing changes |
| BrowserWindow.Browser.ChangeSearchEngine | ZiBrowser.py:831-833 | the current engine becomes the given name |
| BrowserWindow.Browser.AddSearchEngine | ZiBrowser.py:870-877 | the engine is stored, overwriting any engine of the same name, iff the name and template pass the check; otherwise the table is unchanged |
| BrowserWindow.Browser.SuspendTab | ZiBrowser.py:756-764 | the tab at `index` becomes `Suspend` of itself, and the invariant is kept |
| BrowserWindow.Browser.ResumeTab | ZiBrowser.py:766-773 | the tab at `index` becomes `Resume` of itself, and the invariant is kept |
| BrowserWindow.Browser.CheckInactiveTabs | ZiBrowser.py:744-754 | the loop leaves the tabs as `TickTabs` and `tab_last_used` as `TickStamps` of the old state |
| BrowserWindow.Browser.ReloadAllTabs | ZiBrowser.py:729-731 | every tab is reloaded once |
| BrowserWindow.Browser.ApplyPerformanceProfile | ZiBrowser.py:820-829 | a known profile writes its four flags and reloads every tab; an unknown name changes nothing |
| BrowserWindow.Browser.TogglePerformanceMode | ZiBrowser.py:725-731 | the flags become `WithPerformanceMode` of the old flags, and every tab reloads |
| BrowserWindow.Browser.ToggleImageLoading | ZiBrowser.py:733-736 | the flags become `WithImageLoading` of the old flags, and every tab reloads |
| BrowserWindow.Browser.ToggleDarkMode | ZiBrowser.py:608-615 | the switch is off until first used, and each call flips it |
| BrowserWindow.Browser.PinTab | ZiBrowser.py:617-627 | tabs, current index and pinned set become `PinToggle` of the old ones |

## Left out

- The GUI is not modelled: widgets, dialogs, style sheets, menus, the address bar's display text and the download manager. Dark mode is only its switch, not the style sheet text.
- JavaScript injection, the web channel bridge and the video helpers are not modelled.
- Memory clearing, the proxy, the private window and the resource monitor (psutil) are not modelled.
- The `QTimer` and its 60 000 ms period are not modelled: each tick is a call to `CheckInactiveTabs` with the current time in seconds.
- BrowserWindow.Browser.CheckInactiveTabs: `QDateTime.secsTo` is not modelled separately; times are whole seconds.
- Percent-encoding (`QUrl.toPercentEncoding`) is a parameter of the model, not a definition.
- Text.Lower: lower-cases ASCII letters only, while Python's `str.lower()` also folds other Unicode letters.
- Text.Format: reads only `{}`, `{0}`, `{{` and `}}`; any other field is `Err(BadBrace)`. With its one positional argument, Python also raises for named fields (`KeyError`) and for indices other than 0 (`IndexError`), but it formats conversions, format specifications and element or attribute access (`{!r}`, `{:>5}`, `{0[0]}`), which the model rejects.
- The label rewrite on `loadFinished` is not modelled. It replaces a tab's label with the page title, which also erases the `[Suspended] ` prefix.
- Tab identity is a number taken from a counter. Python compares the widget objects themselves.
- Persistence in the settings store (`QSettings.setValue`) is not modelled. The stored engine and engine table are constructor parameters.
- `self.settings` first holds the engine settings (line 112) and is then replaced by a `QSettings` store (line 227), so the later `setAttribute` calls name a method the store does not have. The model applies these writes to the engine flag map, which is what the code evidently means.
- BrowserWindow.Browser.NavigateToUrl: a raised exception is returned as an error, with no change to the tabs; what PyQt does afterwards with an exception escaping a slot is not modelled.
- The Qt index rules for `removeTab`, `moveTab`, `setTabIcon` and `setCurrentIndex` are taken from the toolkit's documented behaviour, not from code in this repository.
- Nothing in the program calls `resume_tab`, `pin_tab` or `apply_performance_profile`. They are modelled as operations anyone could call.
- The combo box listing the engines is not modelled. That includes the duplicate entry `add_search_engine` adds for an existing name.
- Logging to `zibrowser.log` and the console printout in `handle_js_console` are not modelled. Only the level naming and the level filter are modelled.
