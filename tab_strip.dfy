/** How the tab strip renumbers its tabs when one is closed or moved to the
    front, and which tab stays current. These are the toolkit's rules that
    `close_current_tab` and `pin_tab` rely on: closing the current tab makes
    its right neighbour current (the last tab when it was the last one),
    and a moved tab keeps being current if it was. */
module TabStrip {

  /** The strip after `removeTab(i)`. */
  function RemoveAt<T>(s: seq<T>, i: nat): seq<T>
    requires i < |s|
  {
    s[..i] + s[i + 1..]
  }

  /** The current index after `removeTab(i)`, for a strip left with
      `remaining` tabs. */
  function CurrentAfterRemove(current: nat, i: nat, remaining: nat): nat {
    if i < current then current - 1
    else if i == current then (if i < remaining then i else if remaining > 0 then remaining - 1 else 0)
    else current
  }

  /** Closing a tab other than the current one leaves the same tab current;
      closing the current one selects a tab that is still there. */
  lemma RemoveKeepsCurrent<T>(s: seq<T>, i: nat, current: nat)
    requires i < |s| && current < |s| && |s| >= 2
    ensures CurrentAfterRemove(current, i, |s| - 1) < |RemoveAt(s, i)|
    ensures current != i ==> RemoveAt(s, i)[CurrentAfterRemove(current, i, |s| - 1)] == s[current]
  {
  }

  /** Removing tab `i` keeps every other tab, in order. */
  lemma RemoveAtKeepsOthers<T>(s: seq<T>, i: nat)
    requires i < |s|
    ensures |RemoveAt(s, i)| == |s| - 1
    ensures multiset(RemoveAt(s, i)) + multiset{s[i]} == multiset(s)
  {
    assert s == s[..i] + [s[i]] + s[i + 1..];
  }

  /** The strip after `moveTab(i, 0)`. */
  function MoveToFront<T>(s: seq<T>, i: nat): seq<T>
    requires i < |s|
  {
    [s[i]] + s[..i] + s[i + 1..]
  }

  /** Where the tab that was at `c` sits after `moveTab(i, 0)`. */
  function IndexAfterMoveToFront(c: nat, i: nat): nat {
    if c == i then 0 else if c < i then c + 1 else c
  }

  /** Moving a tab to the front reorders the strip and loses no tab, and
      every tab, the current one included, can be found at its new index. */
  lemma MoveToFrontPermutes<T>(s: seq<T>, i: nat, c: nat)
    requires i < |s| && c < |s|
    ensures |MoveToFront(s, i)| == |s| && MoveToFront(s, i)[0] == s[i]
    ensures multiset(MoveToFront(s, i)) == multiset(s)
    ensures IndexAfterMoveToFront(c, i) < |s|
    ensures MoveToFront(s, i)[IndexAfterMoveToFront(c, i)] == s[c]
  {
    assert s == s[..i] + [s[i]] + s[i + 1..];
  }
}
