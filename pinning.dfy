/** `pin_tab`: toggling a strip position in the set of pinned positions.
    The set holds positions, not tabs, and moving a newly pinned tab to the
    front renumbers the tabs before it, so a recorded position can stop
    naming the tab that was pinned there. */
module Pinning {
  import opened Tabs
  import opened TabStrip

  /** The part of the browser `pin_tab` reads and writes. */
  datatype PinState = PinState(tabs: seq<Tab>, current: nat, pinned: set<int>)

  /** `pin_tab(index)`: a recorded position is dropped from the set and its
      icon cleared; any other position is recorded, and the tab there gets
      the pin icon and moves to the front, the current tab staying current.
      A position with no tab is still recorded or dropped; the strip ignores
      the icon and the move for it. */
  function PinToggle(st: PinState, index: int): PinState {
    if index in st.pinned then
      st.(pinned := st.pinned - {index},
          tabs := if 0 <= index < |st.tabs| then st.tabs[index := st.tabs[index].(icon := NoIcon)] else st.tabs)
    else if 0 <= index < |st.tabs| then
      PinState(MoveToFront(st.tabs[index := st.tabs[index].(icon := PinIcon)], index),
               IndexAfterMoveToFront(st.current, index), st.pinned + {index})
    else
      st.(pinned := st.pinned + {index})
  }

  /** Where the tab at position `k` after `moveTab(i, 0)` came from. */
  function OriginBeforeMove(k: nat, i: nat): nat {
    if k == 0 then i else if k <= i then k - 1 else k
  }

  /** The moved strip, position by position. */
  lemma MoveToFrontAt(s: seq<Tab>, i: nat, k: nat)
    requires i < |s| && k < |s|
    ensures OriginBeforeMove(k, i) < |s| && MoveToFront(s, i)[k] == s[OriginBeforeMove(k, i)]
  {
    if k > 0 {
      assert MoveToFront(s, i)[k] == (s[..i] + s[i + 1..])[k - 1];
    }
  }

  /** Moving a tab to the front keeps the tab identities distinct. */
  lemma MoveToFrontKeepsIds(s: seq<Tab>, i: nat)
    requires i < |s| && DistinctIds(s)
    ensures |MoveToFront(s, i)| == |s| && DistinctIds(MoveToFront(s, i))
    ensures forall k :: 0 <= k < |s| ==> MoveToFront(s, i)[k].id == s[OriginBeforeMove(k, i)].id
  {
    forall k | 0 <= k < |s|
      ensures MoveToFront(s, i)[k].id == s[OriginBeforeMove(k, i)].id
    {
      MoveToFrontAt(s, i, k);
    }
  }

  /** Pinning a position that holds a tab and is not recorded: that tab
      moves to the front with the pin icon, the tab that was current is
      still current, and no tab is lost. */
  lemma PinMovesToFront(st: PinState, index: nat)
    requires index < |st.tabs| && st.current < |st.tabs| && index !in st.pinned
    ensures var r := PinToggle(st, index);
      r.pinned == st.pinned + {index} &&
      |r.tabs| == |st.tabs| && r.tabs[0] == st.tabs[index].(icon := PinIcon) &&
      r.current < |r.tabs| && r.tabs[r.current].id == st.tabs[st.current].id &&
      multiset(r.tabs) == multiset(st.tabs[index := st.tabs[index].(icon := PinIcon)])
  {
    var marked := st.tabs[index := st.tabs[index].(icon := PinIcon)];
    MoveToFrontPermutes(marked, index, st.current);
  }

  /** Calling `pin_tab` twice with the same position `index > 0` does not
      unpin the tab it pinned: the set is as before, the pinned tab keeps
      its icon at the front, and the icon cleared is that of the tab that
      was just left of it, which the move shifted into position `index`. */
  lemma PinTwiceClearsNeighbour(st: PinState, index: nat)
    requires 0 < index < |st.tabs| && index !in st.pinned
    ensures var r := PinToggle(PinToggle(st, index), index);
      r.pinned == st.pinned &&
      r.tabs[0] == st.tabs[index].(icon := PinIcon) &&
      r.tabs[index] == st.tabs[index - 1].(icon := NoIcon)
  {
    var marked := st.tabs[index := st.tabs[index].(icon := PinIcon)];
    MoveToFrontAt(marked, index, 0);
    MoveToFrontAt(marked, index, index);
  }
}
