/**
 * The tab strip of a browser window (chrome/browser/tabs/tab_strip_model.cc):
 * an ordered list of tabs, the index of the selected one and a "closing all"
 * flag. Observers, the delegate and the order controller are outside the
 * model; the order controller's answers arrive as method parameters.
 */
module TabStrip {

  datatype Option<T> = None | Some(value: T)

  /** The index that names no tab. */
  const NoTab := -1

  /**
   * One entry of the strip. `contents` identifies the tab's contents and also
   * its navigation controller, which is what openers and groups point at. A
   * tab is mini when it is pinned or shows an app, and a phantom when it is
   * pinned and its controller needs a reload.
   */
  datatype TabData = TabData(contents: int, pinned: bool, app: bool, needsReload: bool,
                             opener: Option<int>, group: Option<int>)

  predicate IsMini(t: TabData)
  {
    t.pinned || t.app
  }

  predicate IsPhantom(t: TabData)
  {
    t.pinned && t.needsReload
  }

  /** The context menu commands that close several tabs, and all the others. */
  datatype ContextMenuCommand = CommandCloseTabsToRight | CommandCloseOtherTabs | OtherCommand

  // ---------------------------------------------------------------------------
  // The strip as a value

  /** Mini tabs come first: no mini tab follows a tab that is not mini. */
  predicate MiniPrefix(tabs: seq<TabData>)
  {
    forall i, j :: 0 <= i < j < |tabs| && IsMini(tabs[j]) ==> IsMini(tabs[i])
  }

  /** No contents appears twice in the strip. */
  predicate DistinctContents(tabs: seq<TabData>)
  {
    forall i, j :: 0 <= i < j < |tabs| ==> tabs[i].contents != tabs[j].contents
  }

  /** The index of the first tab that is not mini; the count when every tab is. */
  function FirstNonMini(tabs: seq<TabData>): (r: nat)
    ensures r <= |tabs|
    ensures forall i :: 0 <= i < r ==> IsMini(tabs[i])
    ensures r < |tabs| ==> !IsMini(tabs[r])
  {
    if tabs == [] || !IsMini(tabs[0]) then 0 else 1 + FirstNonMini(tabs[1..])
  }

  function Min(a: int, b: int): int { if a < b then a else b }
  function Max(a: int, b: int): int { if a < b then b else a }

  /**
   * Where a tab asked for at `index` is inserted: a mini tab among the mini
   * tabs, any other tab among the others.
   */
  function Constrained(tabs: seq<TabData>, index: int, mini: bool): (r: int)
    ensures mini ==> 0 <= r <= FirstNonMini(tabs)
    ensures !mini ==> FirstNonMini(tabs) <= r <= |tabs|
    ensures mini && 0 <= index <= FirstNonMini(tabs) ==> r == index
    ensures !mini && FirstNonMini(tabs) <= index <= |tabs| ==> r == index
  {
    if mini then Min(Max(0, index), FirstNonMini(tabs))
    else Min(|tabs|, Max(index, FirstNonMini(tabs)))
  }

  function InsertAt(tabs: seq<TabData>, i: nat, t: TabData): seq<TabData>
    requires i <= |tabs|
  {
    tabs[..i] + [t] + tabs[i..]
  }

  function RemoveAt(tabs: seq<TabData>, i: nat): seq<TabData>
    requires i < |tabs|
  {
    tabs[..i] + tabs[i + 1..]
  }

  /** The tab at `from` taken out and put back in at `to`. */
  function MoveTo(tabs: seq<TabData>, from: nat, to: nat): seq<TabData>
    requires from < |tabs| && to < |tabs|
  {
    InsertAt(RemoveAt(tabs, from), to, tabs[from])
  }

  /** Where the selection goes when the tab at `from` moves to `to`. */
  function MovedSelection(selected: int, from: int, to: int, selectAfterMove: bool): int
  {
    if selectAfterMove || from == selected then to
    else if from < selected && to >= selected then selected - 1
    else if from > selected && to <= selected then selected + 1
    else selected
  }

  /**
   * The record of a newly inserted tab: it inherits the selected tab as its
   * group and opener, or as its opener only, when asked to and when a tab is
   * selected.
   */
  function NewTabData(contents: int, pin: bool, app: bool, needsReload: bool, selectedContents: Option<int>,
                      inheritGroup: bool, inheritOpener: bool): (t: TabData)
    ensures t.contents == contents && t.pinned == pin && t.app == app && t.needsReload == needsReload
    ensures t.opener == (if (inheritGroup || inheritOpener) then selectedContents else None)
    ensures t.group == (if inheritGroup then selectedContents else None)
  {
    var data := TabData(contents, pin, app, needsReload, None, None);
    if inheritGroup && selectedContents.Some? then data.(group := selectedContents, opener := selectedContents)
    else if inheritOpener && selectedContents.Some? then data.(opener := selectedContents)
    else data
  }

  /** Every tab with its opener forgotten. */
  function ForgetOpeners(tabs: seq<TabData>): (r: seq<TabData>)
    ensures |r| == |tabs|
  {
    seq(|tabs|, i requires 0 <= i < |tabs| => tabs[i].(opener := None))
  }

  predicate HasLive(tabs: seq<TabData>)
  {
    exists i :: 0 <= i < |tabs| && !IsPhantom(tabs[i])
  }

  /** How many single steps forward lead from `from` to `to` on a ring of n; 0 when they are equal. */
  function Ahead(from: int, to: int, n: int): int
  {
    if to >= from then to - from else to - from + n
  }

  /** How many single steps backward lead from `from` to `to` on a ring of n; 0 when they are equal. */
  function Behind(from: int, to: int, n: int): int
  {
    if to <= from then from - to else from - to + n
  }

  /** The steps a cyclic walk in the given direction takes from `from` to `to`: a full turn when they are equal. */
  function Steps(from: int, to: int, n: int, forward: bool): int
  {
    var d := if forward then Ahead(from, to, n) else Behind(from, to, n);
    if d == 0 then n else d
  }

  /** Whether the tab at j counts as opened by `opener`. */
  predicate OpenerMatches(t: TabData, opener: int, useGroup: bool)
  {
    t.opener == Some(opener) || (useGroup && t.group == Some(opener))
  }

  // ---------------------------------------------------------------------------
  // Lemmas about the strip as a value

  /** In a strip whose mini tabs come first, a tab is mini exactly when it precedes the first non-mini tab. */
  lemma MiniExactlyBeforeFirstNonMini(tabs: seq<TabData>)
    requires MiniPrefix(tabs)
    ensures forall i :: 0 <= i < |tabs| ==> (IsMini(tabs[i]) <==> i < FirstNonMini(tabs))
  {
    var k := FirstNonMini(tabs);
    forall i | 0 <= i < |tabs|
      ensures IsMini(tabs[i]) <==> i < k
    {
      if k < i {
        assert !IsMini(tabs[k]);
      }
    }
  }

  /** A strip whose tabs are mini exactly below some index has its mini tabs first, and that index is the first non-mini one. */
  lemma MiniPrefixFromSplit(tabs: seq<TabData>, k: nat)
    requires k <= |tabs|
    requires forall i :: 0 <= i < |tabs| ==> (IsMini(tabs[i]) <==> i < k)
    ensures MiniPrefix(tabs)
    ensures FirstNonMini(tabs) == k
  {
    var f := FirstNonMini(tabs);
    assert f <= k by {
      if k < |tabs| {
        assert !IsMini(tabs[k]);
      }
    }
    assert k <= f by {
      if f < |tabs| {
        assert !IsMini(tabs[f]);
      }
    }
  }

  lemma InsertAtIndex(tabs: seq<TabData>, at: nat, t: TabData)
    requires at <= |tabs|
    ensures |InsertAt(tabs, at, t)| == |tabs| + 1
    ensures forall i :: 0 <= i < at ==> InsertAt(tabs, at, t)[i] == tabs[i]
    ensures InsertAt(tabs, at, t)[at] == t
    ensures forall i :: at < i <= |tabs| ==> InsertAt(tabs, at, t)[i] == tabs[i - 1]
  {
  }

  lemma RemoveAtIndex(tabs: seq<TabData>, at: nat)
    requires at < |tabs|
    ensures |RemoveAt(tabs, at)| == |tabs| - 1
    ensures forall i :: 0 <= i < at ==> RemoveAt(tabs, at)[i] == tabs[i]
    ensures forall i :: at <= i < |tabs| - 1 ==> RemoveAt(tabs, at)[i] == tabs[i + 1]
  {
  }

  /**
   * Moving a tab shifts the tabs between the two positions by one and leaves
   * the rest where they were.
   */
  lemma MoveToIndex(tabs: seq<TabData>, from: nat, to: nat)
    requires from < |tabs| && to < |tabs|
    ensures |MoveTo(tabs, from, to)| == |tabs|
    ensures MoveTo(tabs, from, to)[to] == tabs[from]
    ensures forall i :: 0 <= i < |tabs| && i < from && i < to ==> MoveTo(tabs, from, to)[i] == tabs[i]
    ensures forall i :: 0 <= i < |tabs| && i > from && i > to ==> MoveTo(tabs, from, to)[i] == tabs[i]
    ensures forall i :: from <= i < to ==> MoveTo(tabs, from, to)[i] == tabs[i + 1]
    ensures forall i :: to < i <= from ==> MoveTo(tabs, from, to)[i] == tabs[i - 1]
  {
    RemoveAtIndex(tabs, from);
    InsertAtIndex(RemoveAt(tabs, from), to, tabs[from]);
  }

  /** A move is a permutation that puts the moved tab at `to` and keeps the others in their order. */
  lemma MoveIsPermutation(tabs: seq<TabData>, from: nat, to: nat)
    requires from < |tabs| && to < |tabs|
    ensures multiset(MoveTo(tabs, from, to)) == multiset(tabs)
    ensures MoveTo(tabs, from, to)[to] == tabs[from]
    ensures RemoveAt(MoveTo(tabs, from, to), to) == RemoveAt(tabs, from)
  {
    var r := RemoveAt(tabs, from);
    var m := MoveTo(tabs, from, to);
    calc {
      multiset(m);
      multiset(r[..to] + [tabs[from]] + r[to..]);
      multiset(r[..to]) + multiset{tabs[from]} + multiset(r[to..]);
      { assert r[..to] + r[to..] == r; }
      multiset(r) + multiset{tabs[from]};
      multiset(tabs[..from]) + multiset(tabs[from + 1..]) + multiset{tabs[from]};
      { assert tabs[..from] + [tabs[from]] + tabs[from + 1..] == tabs; }
      multiset(tabs);
    }
    assert m[..to] == r[..to];
    assert m[to + 1..] == r[to..];
  }

  /** Unless the moved tab is to be selected, the selection follows the tab that was selected. */
  lemma MoveKeepsSelectedTab(tabs: seq<TabData>, from: nat, to: nat, selected: int)
    requires from < |tabs| && to < |tabs| && 0 <= selected < |tabs|
    ensures 0 <= MovedSelection(selected, from, to, false) < |tabs|
    ensures MoveTo(tabs, from, to)[MovedSelection(selected, from, to, false)] == tabs[selected]
  {
    MoveToIndex(tabs, from, to);
  }

  /** A move that stays on its side of the mini/non-mini boundary keeps the mini tabs first. */
  lemma MoveKeepsMiniPrefix(tabs: seq<TabData>, from: nat, to: nat)
    requires from < |tabs| && to < |tabs| && MiniPrefix(tabs)
    requires (from < FirstNonMini(tabs)) == (to < FirstNonMini(tabs))
    ensures MiniPrefix(MoveTo(tabs, from, to))
    ensures FirstNonMini(MoveTo(tabs, from, to)) == FirstNonMini(tabs)
  {
    var k := FirstNonMini(tabs);
    var m := MoveTo(tabs, from, to);
    MiniExactlyBeforeFirstNonMini(tabs);
    MoveToIndex(tabs, from, to);
    forall i | 0 <= i < |m|
      ensures IsMini(m[i]) <==> i < k
    {
      if i == to {
      } else if i < from && i < to {
      } else if i > from && i > to {
      } else if from <= i < to {
        assert m[i] == tabs[i + 1];
      } else {
        assert m[i] == tabs[i - 1];
      }
    }
    MiniPrefixFromSplit(m, k);
  }

  /** Inserting at the constrained index keeps the mini tabs first. */
  lemma InsertKeepsMiniPrefix(tabs: seq<TabData>, index: int, t: TabData)
    requires MiniPrefix(tabs)
    ensures 0 <= Constrained(tabs, index, IsMini(t)) <= |tabs|
    ensures MiniPrefix(InsertAt(tabs, Constrained(tabs, index, IsMini(t)), t))
  {
    var k := FirstNonMini(tabs);
    var at := Constrained(tabs, index, IsMini(t));
    var r := InsertAt(tabs, at, t);
    var k2 := if IsMini(t) then k + 1 else k;
    MiniExactlyBeforeFirstNonMini(tabs);
    InsertAtIndex(tabs, at, t);
    forall i | 0 <= i < |r|
      ensures IsMini(r[i]) <==> i < k2
    {
      if i < at {
      } else if i == at {
      } else {
        assert r[i] == tabs[i - 1];
      }
    }
    MiniPrefixFromSplit(r, k2);
  }

  /** Inserting before or at the selected index shifts it by one, so it still names the same tab. */
  lemma InsertKeepsSelectedTab(tabs: seq<TabData>, at: nat, t: TabData, selected: int)
    requires at <= |tabs| && 0 <= selected < |tabs|
    ensures var moved := if at <= selected then selected + 1 else selected;
            0 <= moved < |InsertAt(tabs, at, t)| && InsertAt(tabs, at, t)[moved] == tabs[selected]
  {
    InsertAtIndex(tabs, at, t);
  }

  /** Removing a tab keeps the mini tabs first. */
  lemma RemoveKeepsMiniPrefix(tabs: seq<TabData>, at: nat)
    requires at < |tabs| && MiniPrefix(tabs)
    ensures MiniPrefix(RemoveAt(tabs, at))
  {
    RemoveAtIndex(tabs, at);
  }

  lemma InsertKeepsDistinct(tabs: seq<TabData>, at: nat, t: TabData)
    requires at <= |tabs| && DistinctContents(tabs)
    requires forall i :: 0 <= i < |tabs| ==> tabs[i].contents != t.contents
    ensures DistinctContents(InsertAt(tabs, at, t))
  {
    InsertAtIndex(tabs, at, t);
    var r := InsertAt(tabs, at, t);
    forall i, j | 0 <= i < j < |r|
      ensures r[i].contents != r[j].contents
    {
      var i0 := if i < at then i else i - 1;
      var j0 := if j < at then j else j - 1;
      if i != at && j != at {
        assert r[i] == tabs[i0] && r[j] == tabs[j0] && i0 < j0;
      }
    }
  }

  lemma RemoveKeepsDistinct(tabs: seq<TabData>, at: nat)
    requires at < |tabs| && DistinctContents(tabs)
    ensures DistinctContents(RemoveAt(tabs, at))
  {
    RemoveAtIndex(tabs, at);
  }

  lemma MoveKeepsDistinct(tabs: seq<TabData>, from: nat, to: nat)
    requires from < |tabs| && to < |tabs| && DistinctContents(tabs)
    ensures DistinctContents(MoveTo(tabs, from, to))
  {
    var r := RemoveAt(tabs, from);
    RemoveKeepsDistinct(tabs, from);
    RemoveAtIndex(tabs, from);
    forall i | 0 <= i < |r|
      ensures r[i].contents != tabs[from].contents
    {
      if i < from { } else { assert r[i] == tabs[i + 1]; }
    }
    InsertKeepsDistinct(r, to, tabs[from]);
  }

  /** Forgetting openers changes no pinned, app or reload flag, so it keeps both invariants. */
  lemma ForgetOpenersKeeps(tabs: seq<TabData>)
    requires MiniPrefix(tabs) && DistinctContents(tabs)
    ensures MiniPrefix(ForgetOpeners(tabs)) && DistinctContents(ForgetOpeners(tabs))
    ensures FirstNonMini(ForgetOpeners(tabs)) == FirstNonMini(tabs)
    ensures forall i :: 0 <= i < |tabs| ==> IsPhantom(ForgetOpeners(tabs)[i]) == IsPhantom(tabs[i])
  {
    var f := ForgetOpeners(tabs);
    MiniExactlyBeforeFirstNonMini(tabs);
    forall i | 0 <= i < |f|
      ensures IsMini(f[i]) <==> i < FirstNonMini(tabs)
    {
      assert f[i] == tabs[i].(opener := None);
    }
    MiniPrefixFromSplit(f, FirstNonMini(tabs));
  }

  /**
   * The strip after inserting a tab for `contents` at the index asked for:
   * the tab goes where Constrained puts it, pinned when it is an app or asked
   * to be, and records the selected tab as its opener (and group) when asked
   * to inherit them; a foreground insert that records an opener first
   * forgets every other tab's opener.
   */
  function InsertedStrip(tabs: seq<TabData>, selectedContents: Option<int>, index: int, contents: int, app: bool,
                         needsReload: bool, foreground: bool, addPinned: bool, inheritGroup: bool,
                         inheritOpener: bool): (r: seq<TabData>)
    ensures |r| == |tabs| + 1
    ensures var at := Constrained(tabs, index, app || addPinned);
            r[at].contents == contents && r[at].pinned == (app || addPinned) && r[at].app == app
  {
    var data := NewTabData(contents, app || addPinned, app, needsReload, selectedContents, inheritGroup, inheritOpener);
    InsertAt(if foreground && data.opener.Some? then ForgetOpeners(tabs) else tabs,
             Constrained(tabs, index, app || addPinned), data)
  }

  /** The selection after InsertedStrip: the new tab in the foreground, otherwise the tab that was selected. */
  function InsertedSelection(tabs: seq<TabData>, selected: int, index: int, pin: bool, foreground: bool): int
  {
    var at := Constrained(tabs, index, pin);
    if foreground then at else if at <= selected then selected + 1 else selected
  }

  /**
   * Inserting fresh contents keeps the mini tabs first and the contents
   * distinct, and the new tab sits where Constrained puts it.
   */
  lemma InsertedStripValid(tabs: seq<TabData>, selectedContents: Option<int>, index: int, contents: int, app: bool,
                           needsReload: bool, foreground: bool, addPinned: bool, inheritGroup: bool, inheritOpener: bool)
    requires MiniPrefix(tabs) && DistinctContents(tabs)
    requires forall i :: 0 <= i < |tabs| ==> tabs[i].contents != contents
    ensures var r := InsertedStrip(tabs, selectedContents, index, contents, app, needsReload, foreground, addPinned,
                                   inheritGroup, inheritOpener);
            var at := Constrained(tabs, index, app || addPinned);
            MiniPrefix(r) && DistinctContents(r) && |r| == |tabs| + 1 &&
            r[at].contents == contents && r[at].pinned == (app || addPinned)
  {
    var data := NewTabData(contents, app || addPinned, app, needsReload, selectedContents, inheritGroup, inheritOpener);
    var at := Constrained(tabs, index, app || addPinned);
    var base := if foreground && data.opener.Some? then ForgetOpeners(tabs) else tabs;
    ForgetOpenersKeeps(tabs);
    assert Constrained(base, index, IsMini(data)) == at;
    assert forall i :: 0 <= i < |base| ==> base[i].contents == tabs[i].contents;
    InsertKeepsMiniPrefix(base, index, data);
    InsertKeepsDistinct(base, at, data);
    InsertAtIndex(base, at, data);
  }

  /** A background insert keeps the selection on the tab that was selected. */
  lemma InsertedKeepsSelectedTab(tabs: seq<TabData>, selected: int, selectedContents: Option<int>, index: int,
                                 contents: int, app: bool, needsReload: bool, addPinned: bool, inheritGroup: bool,
                                 inheritOpener: bool)
    requires 0 <= selected < |tabs|
    ensures var r := InsertedStrip(tabs, selectedContents, index, contents, app, needsReload, false, addPinned,
                                   inheritGroup, inheritOpener);
            var s := InsertedSelection(tabs, selected, index, app || addPinned, false);
            0 <= s < |r| && r[s] == tabs[selected]
  {
    var data := NewTabData(contents, app || addPinned, app, needsReload, selectedContents, inheritGroup, inheritOpener);
    InsertKeepsSelectedTab(tabs, Constrained(tabs, index, app || addPinned), data, selected);
  }

  /** The strip with the tab at `index` given a new pinned flag. */
  function WithPinned(tabs: seq<TabData>, index: nat, pinned: bool): seq<TabData>
    requires index < |tabs|
  {
    tabs[index := tabs[index].(pinned := pinned)]
  }

  lemma WithPinnedKeepsDistinct(tabs: seq<TabData>, index: nat, pinned: bool)
    requires index < |tabs| && DistinctContents(tabs)
    ensures DistinctContents(WithPinned(tabs, index, pinned))
  {
    var m := WithPinned(tabs, index, pinned);
    forall i, j | 0 <= i < j < |m|
      ensures m[i].contents != m[j].contents
    {
      assert m[i].contents == tabs[i].contents && m[j].contents == tabs[j].contents;
    }
  }

  /** Pinning an app tab, which is mini either way, keeps the mini tabs first. */
  lemma PinAppKeepsMiniPrefix(tabs: seq<TabData>, index: nat, pinned: bool)
    requires index < |tabs| && MiniPrefix(tabs) && tabs[index].app
    ensures MiniPrefix(WithPinned(tabs, index, pinned))
  {
    var m := WithPinned(tabs, index, pinned);
    assert forall i :: 0 <= i < |m| ==> IsMini(m[i]) == IsMini(tabs[i]);
  }

  /**
   * Pinning a tab that is not mini and moving it to the first non-mini slot
   * keeps the mini tabs first, now one more of them.
   */
  lemma PinMoveKeepsMiniPrefix(tabs: seq<TabData>, index: nat)
    requires index < |tabs| && MiniPrefix(tabs) && !IsMini(tabs[index])
    ensures FirstNonMini(tabs) <= index
    ensures MiniPrefix(MoveTo(WithPinned(tabs, index, true), index, FirstNonMini(tabs)))
    ensures FirstNonMini(MoveTo(WithPinned(tabs, index, true), index, FirstNonMini(tabs))) == FirstNonMini(tabs) + 1
  {
    var k := FirstNonMini(tabs);
    MiniExactlyBeforeFirstNonMini(tabs);
    var mid := WithPinned(tabs, index, true);
    var m := MoveTo(mid, index, k);
    MoveToIndex(mid, index, k);
    forall i | 0 <= i < |m|
      ensures IsMini(m[i]) <==> i < k + 1
    {
      if i < k {
        assert m[i] == tabs[i];
      } else if i == k {
      } else if i <= index {
        assert m[i] == mid[i - 1] == tabs[i - 1];
      } else {
        assert m[i] == tabs[i];
      }
    }
    MiniPrefixFromSplit(m, k + 1);
  }

  /**
   * Unpinning a pinned tab that is not an app and moving it to the last mini
   * slot keeps the mini tabs first, now one fewer of them.
   */
  lemma UnpinMoveKeepsMiniPrefix(tabs: seq<TabData>, index: nat)
    requires index < |tabs| && MiniPrefix(tabs) && tabs[index].pinned && !tabs[index].app
    ensures index < FirstNonMini(tabs)
    ensures MiniPrefix(MoveTo(WithPinned(tabs, index, false), index, FirstNonMini(tabs) - 1))
    ensures FirstNonMini(MoveTo(WithPinned(tabs, index, false), index, FirstNonMini(tabs) - 1)) == FirstNonMini(tabs) - 1
  {
    var k := FirstNonMini(tabs);
    MiniExactlyBeforeFirstNonMini(tabs);
    var mid := WithPinned(tabs, index, false);
    var m := MoveTo(mid, index, k - 1);
    MoveToIndex(mid, index, k - 1);
    forall i | 0 <= i < |m|
      ensures IsMini(m[i]) <==> i < k - 1
    {
      if i < index {
        assert m[i] == tabs[i];
      } else if i < k - 1 {
        assert m[i] == mid[i + 1] == tabs[i + 1];
      } else if i == k - 1 {
      } else {
        assert m[i] == tabs[i];
      }
    }
    MiniPrefixFromSplit(m, k - 1);
  }

  /** Changing the flag of the tab on the boundary needs no move to keep the mini tabs first. */
  lemma PinInPlaceKeepsMiniPrefix(tabs: seq<TabData>, index: nat, pinned: bool)
    requires index < |tabs| && MiniPrefix(tabs) && !tabs[index].app && tabs[index].pinned != pinned
    requires if pinned then index == FirstNonMini(tabs) else index + 1 == FirstNonMini(tabs)
    ensures MiniPrefix(WithPinned(tabs, index, pinned))
    ensures FirstNonMini(WithPinned(tabs, index, pinned)) == if pinned then index + 1 else index
  {
    var k := FirstNonMini(tabs);
    var k2 := if pinned then k + 1 else k - 1;
    MiniExactlyBeforeFirstNonMini(tabs);
    var m := WithPinned(tabs, index, pinned);
    assert forall i :: 0 <= i < |m| ==> (IsMini(m[i]) <==> i < k2);
    MiniPrefixFromSplit(m, k2);
  }

  /**
   * The strip after pinning (or unpinning) the tab at `index`. An app tab
   * stays mini, so only its flag changes, and it is never unpinned. Any other
   * tab crosses the boundary between mini and other tabs: pinning moves it to
   * the first non-mini slot, unpinning to the last mini slot, and a tab
   * already on the boundary stays where it is.
   */
  function PinnedStrip(tabs: seq<TabData>, index: nat, pinned: bool): (r: seq<TabData>)
    requires index < |tabs| && MiniPrefix(tabs)
    ensures |r| == |tabs|
    ensures tabs[index].app ==> forall j :: 0 <= j < |tabs| && j != index ==> r[j] == tabs[j]
  {
    var t := tabs[index];
    var k := FirstNonMini(tabs);
    var mid := WithPinned(tabs, index, pinned);
    if t.pinned == pinned || (t.app && !pinned) then tabs
    else if t.app then mid
    else if pinned && index != k then MoveTo(mid, index, k)
    else if !pinned && index + 1 != k then (MiniExactlyBeforeFirstNonMini(tabs); MoveTo(mid, index, k - 1))
    else mid
  }

  /** The selection after PinnedStrip: it follows the tab it was on. */
  function PinnedSelection(tabs: seq<TabData>, selected: int, index: nat, pinned: bool): int
    requires index < |tabs| && MiniPrefix(tabs)
  {
    var t := tabs[index];
    var k := FirstNonMini(tabs);
    if t.pinned == pinned || t.app then selected
    else if pinned && index != k then MovedSelection(selected, index, k, false)
    else if !pinned && index + 1 != k then MovedSelection(selected, index, k - 1, false)
    else selected
  }

  /** Pinning keeps the mini tabs first and the contents distinct. */
  lemma PinnedStripValid(tabs: seq<TabData>, index: nat, pinned: bool)
    requires index < |tabs| && MiniPrefix(tabs) && DistinctContents(tabs)
    ensures var r := PinnedStrip(tabs, index, pinned);
            MiniPrefix(r) && DistinctContents(r) && |r| == |tabs|
  {
    PinnedStripKeepsMiniPrefix(tabs, index, pinned);
    PinnedStripKeepsDistinct(tabs, index, pinned);
  }

  /** Pinning or unpinning keeps the mini tabs in front. */
  lemma PinnedStripKeepsMiniPrefix(tabs: seq<TabData>, index: nat, pinned: bool)
    requires index < |tabs| && MiniPrefix(tabs)
    ensures MiniPrefix(PinnedStrip(tabs, index, pinned))
  {
    var t := tabs[index];
    var k := FirstNonMini(tabs);
    var mid := WithPinned(tabs, index, pinned);
    var r := PinnedStrip(tabs, index, pinned);
    if t.pinned == pinned || (t.app && !pinned) {
    } else if t.app {
      assert r == mid;
      PinAppKeepsMiniPrefix(tabs, index, pinned);
    } else if pinned && index != k {
      assert r == MoveTo(mid, index, k);
      PinMoveKeepsMiniPrefix(tabs, index);
    } else if !pinned && index + 1 != k {
      MiniExactlyBeforeFirstNonMini(tabs);
      assert r == MoveTo(mid, index, k - 1);
      UnpinMoveKeepsMiniPrefix(tabs, index);
    } else {
      assert r == mid;
      MiniExactlyBeforeFirstNonMini(tabs);
      PinInPlaceKeepsMiniPrefix(tabs, index, pinned);
    }
  }

  /** Pinning or unpinning keeps every contents in the strip once. */
  lemma PinnedStripKeepsDistinct(tabs: seq<TabData>, index: nat, pinned: bool)
    requires index < |tabs| && MiniPrefix(tabs) && DistinctContents(tabs)
    ensures DistinctContents(PinnedStrip(tabs, index, pinned))
  {
    var t := tabs[index];
    var k := FirstNonMini(tabs);
    var mid := WithPinned(tabs, index, pinned);
    var r := PinnedStrip(tabs, index, pinned);
    WithPinnedKeepsDistinct(tabs, index, pinned);
    if t.pinned == pinned || (t.app && !pinned) {
    } else if t.app {
      assert r == mid;
    } else if pinned && index != k {
      assert r == MoveTo(mid, index, k);
      MoveKeepsDistinct(mid, index, k);
    } else if !pinned && index + 1 != k {
      MiniExactlyBeforeFirstNonMini(tabs);
      assert r == MoveTo(mid, index, k - 1);
      MoveKeepsDistinct(mid, index, k - 1);
    } else {
      assert r == mid;
    }
  }

  /** A tab that changes its mini state by pinning lands on the boundary, just inside its new side. */
  lemma PinnedTabLandsOnBoundary(tabs: seq<TabData>, index: nat, pinned: bool)
    requires index < |tabs| && MiniPrefix(tabs)
    requires !tabs[index].app && tabs[index].pinned != pinned
    ensures var r := PinnedStrip(tabs, index, pinned);
            var at := if pinned then FirstNonMini(tabs) else FirstNonMini(tabs) - 1;
            0 <= at < |r| && r[at] == tabs[index].(pinned := pinned) &&
            FirstNonMini(r) == (if pinned then at + 1 else at)
  {
    var k := FirstNonMini(tabs);
    var mid := WithPinned(tabs, index, pinned);
    var r := PinnedStrip(tabs, index, pinned);
    MiniExactlyBeforeFirstNonMini(tabs);
    if pinned && index != k {
      assert r == MoveTo(mid, index, k);
      PinMoveKeepsMiniPrefix(tabs, index);
      MoveToIndex(mid, index, k);
    } else if !pinned && index + 1 != k {
      assert r == MoveTo(mid, index, k - 1);
      UnpinMoveKeepsMiniPrefix(tabs, index);
      MoveToIndex(mid, index, k - 1);
    } else {
      assert r == mid;
      PinInPlaceKeepsMiniPrefix(tabs, index, pinned);
    }
  }

  /** Pinning keeps the selection on the tab that was selected. */
  lemma PinnedKeepsSelectedTab(tabs: seq<TabData>, selected: int, index: nat, pinned: bool)
    requires index < |tabs| && MiniPrefix(tabs) && 0 <= selected < |tabs|
    ensures var r := PinnedStrip(tabs, index, pinned);
            var s := PinnedSelection(tabs, selected, index, pinned);
            0 <= s < |r| && r[s].contents == tabs[selected].contents
  {
    var t := tabs[index];
    var k := FirstNonMini(tabs);
    var mid := WithPinned(tabs, index, pinned);
    MiniExactlyBeforeFirstNonMini(tabs);
    if t.pinned == pinned || t.app {
    } else if pinned && index != k {
      MoveKeepsSelectedTab(mid, index, k, selected);
    } else if !pinned && index + 1 != k {
      MoveKeepsSelectedTab(mid, index, k - 1, selected);
    }
  }

  /** One step of a cyclic walk, written as the source writes it. */
  function StepIndex(index: int, n: int, forward: bool): int
    requires n > 0
  {
    (index + n + (if forward then 1 else -1)) % n
  }

  /** Up to two turns round the ring, the remainder takes off as many whole turns as fit. */
  lemma ModWithinTwoTurns(x: int, n: int)
    requires 0 < n && 0 <= x <= 2 * n
    ensures x % n == if x < n then x else if x < 2 * n then x - n else 0
  {
    var q := x / n;
    assert x == q * n + x % n;
    assert 0 <= q <= 2;
  }

  /** Two indices a walk reaches after the same number of steps are the same index. */
  lemma StepsDistinct(start: int, a: int, b: int, n: int, forward: bool)
    requires 0 <= start < n && 0 <= a < n && 0 <= b < n
    requires Steps(start, a, n, forward) == Steps(start, b, n, forward)
    ensures a == b
  { }

  /**
   * Passing a phantom tab on a walk from `start` keeps every tab the walk has
   * passed a phantom.
   */
  lemma PassedPhantoms(t: seq<TabData>, start: int, passed: int, index: int, forward: bool)
    requires 0 <= start < |t| && 0 <= passed < |t| && 0 <= index < |t|
    requires IsPhantom(t[passed])
    requires Steps(start, index, |t|, forward) == Steps(start, passed, |t|, forward) + 1
    requires forall j :: 0 <= j < |t| && Steps(start, j, |t|, forward) < Steps(start, passed, |t|, forward) ==> IsPhantom(t[j])
    ensures forall j :: 0 <= j < |t| && Steps(start, j, |t|, forward) < Steps(start, index, |t|, forward) ==> IsPhantom(t[j])
  {
    forall j | 0 <= j < |t| && Steps(start, j, |t|, forward) < Steps(start, index, |t|, forward)
      ensures IsPhantom(t[j])
    {
      if Steps(start, j, |t|, forward) == Steps(start, passed, |t|, forward) {
        StepsDistinct(start, j, passed, |t|, forward);
      }
    }
  }

  /** A cyclic step moves one further from where the walk started, and stays on the ring. */
  lemma StepIndexAdvances(start: int, index: int, n: int, forward: bool)
    requires 0 <= start < n && 0 <= index < n
    requires index == start || Steps(start, index, n, forward) < n
    ensures 0 <= StepIndex(index, n, forward) < n
    ensures Steps(start, StepIndex(index, n, forward), n, forward)
         == (if index == start then 1 else Steps(start, index, n, forward) + 1)
  {
    var next := StepIndex(index, n, forward);
    ModWithinTwoTurns(index + n + (if forward then 1 else -1), n);
    if forward {
      assert next == if index + 1 < n then index + 1 else 0;
    } else {
      assert next == if 0 < index then index - 1 else n - 1;
    }
  }

  /** A forward step from `index` that stays on the ring, without wrapping past n. */
  lemma StepForwardWraps(index: int, n: int)
    requires 0 <= index < n
    ensures (index + 1) % n == (if index + 1 < n then index + 1 else 0)
  {
    ModWithinTwoTurns(index + 1, n);
  }

  // ---------------------------------------------------------------------------
  // The strip as an object

  class TabStripModel {
    /** The tabs, in strip order. */
    var tabs: seq<TabData>
    /** The index of the selected tab, NoTab before any is selected. */
    var selected: int
    /** Set while the last live tab is being detached. */
    var closingAll: bool

    ghost predicate Valid()
      reads this
    {
      MiniPrefix(tabs) && DistinctContents(tabs) && NoTab <= selected
    }

    /** An empty strip with nothing selected. */
    constructor()
      ensures Valid()
      ensures tabs == [] && selected == NoTab && !closingAll
    {
      tabs := [];
      selected := NoTab;
      closingAll := false;
    }

    /** Whether `index` names a tab of the strip. */
    predicate ContainsIndex(index: int)
      reads this
      ensures ContainsIndex(index) <==> 0 <= index < |tabs|
    {
      0 <= index < |tabs|
    }

    /** Whether the tab at `index` is mini: in a valid strip, exactly the tabs before the first non-mini one. */
    predicate IsMiniTab(index: int)
      requires ContainsIndex(index)
      reads this
      ensures MiniPrefix(tabs) ==> (IsMiniTab(index) <==> index < FirstNonMini(tabs))
    {
      IsMini(tabs[index])
    }

    /** Whether the tab at `index` is a phantom: a pinned tab whose contents are not loaded, always a mini tab. */
    predicate IsPhantomTab(index: int)
      requires ContainsIndex(index)
      reads this
      ensures IsPhantomTab(index) ==> IsMiniTab(index) && tabs[index].pinned
    {
      IsPhantom(tabs[index])
    }

    /** The contents of the selected tab, if the selected index names a tab. */
    function SelectedContents(): Option<int>
      reads this
    {
      if ContainsIndex(selected) then Some(tabs[selected].contents) else None
    }

    /** Whether some tab is not a phantom. */
    method HasNonPhantomTabs() returns (b: bool)
      ensures b <==> HasLive(tabs)
    {
      var i := 0;
      while i < |tabs|
        invariant 0 <= i <= |tabs|
        invariant forall k :: 0 <= k < i ==> IsPhantom(tabs[k])
      {
        if !IsPhantomTab(i) {
          return true;
        }
        i := i + 1;
      }
      return false;
    }

    method IndexOfFirstNonMiniTab() returns (r: int)
      ensures r == FirstNonMini(tabs)
    {
      var i := 0;
      while i < |tabs|
        invariant 0 <= i <= FirstNonMini(tabs)
      {
        if !IsMiniTab(i) {
          return i;
        }
        i := i + 1;
      }
      return |tabs|;
    }

    /** The index a tab asked for at `index` is actually inserted at. */
    method ConstrainInsertionIndex(index: int, miniTab: bool) returns (r: int)
      ensures r == Constrained(tabs, index, miniTab)
    {
      var firstNonMini := IndexOfFirstNonMiniTab();
      r := if miniTab then Min(Max(0, index), firstNonMini) else Min(|tabs|, Max(index, firstNonMini));
    }

    /** Clears the opener of every tab. */
    method ForgetAllOpeners()
      modifies this
      ensures tabs == ForgetOpeners(old(tabs))
      ensures selected == old(selected) && closingAll == old(closingAll)
    {
      var i := 0;
      while i < |tabs|
        invariant 0 <= i <= |tabs| == |old(tabs)|
        invariant selected == old(selected) && closingAll == old(closingAll)
        invariant forall k :: 0 <= k < i ==> tabs[k] == old(tabs)[k].(opener := None)
        invariant forall k :: i <= k < |tabs| ==> tabs[k] == old(tabs)[k]
      {
        tabs := tabs[i := tabs[i].(opener := None)];
        i := i + 1;
      }
    }

    /** Selects the tab at `toIndex` unless it holds the contents given as the old selection. */
    method ChangeSelectedContentsFrom(oldContents: Option<int>, toIndex: int)
      requires ContainsIndex(toIndex)
      modifies this
      ensures tabs == old(tabs) && closingAll == old(closingAll)
      ensures selected == if oldContents == Some(tabs[toIndex].contents) then old(selected) else toIndex
    {
      if oldContents == Some(tabs[toIndex].contents) {
        return;
      }
      selected := toIndex;
    }

    method SelectTabContentsAt(index: int)
      requires Valid() && ContainsIndex(index)
      modifies this
      ensures Valid()
      ensures tabs == old(tabs) && closingAll == old(closingAll)
      ensures selected == index
    {
      ChangeSelectedContentsFrom(SelectedContents(), index);
    }

    /**
     * Inserts a tab for `contents`: the new strip and selection are
     * InsertedStrip and InsertedSelection of the old ones.
     */
    method InsertTabContentsAt(index: int, contents: int, app: bool, needsReload: bool,
                               foreground: bool, addPinned: bool, inheritGroup: bool, inheritOpener: bool)
      requires Valid()
      requires forall i :: 0 <= i < |tabs| ==> tabs[i].contents != contents
      modifies this
      ensures Valid()
      ensures !closingAll
      ensures tabs == InsertedStrip(old(tabs), old(SelectedContents()), index, contents, app, needsReload,
                                    foreground, addPinned, inheritGroup, inheritOpener)
      ensures selected == InsertedSelection(old(tabs), old(selected), index, app || addPinned, foreground)
    {
      ghost var before := tabs;
      var pin := app || addPinned;
      var at := ConstrainInsertionIndex(index, pin);
      closingAll := false;
      var selectedContents := SelectedContents();
      var data := NewTabData(contents, pin, app, needsReload, selectedContents, inheritGroup, inheritOpener);
      if foreground && data.opener.Some? {
        ForgetAllOpeners();
      }
      tabs := InsertAt(tabs, at, data);
      if at <= selected {
        selected := selected + 1;
      }
      InsertedStripValid(before, selectedContents, index, contents, app, needsReload, foreground, addPinned,
                         inheritGroup, inheritOpener);
      if foreground {
        ChangeSelectedContentsFrom(selectedContents, at);
      }
    }

    /**
     * The first tab from `index` on, cyclically, that is neither `ignoreIndex`
     * nor a phantom, with `index` first clamped into the strip; the clamped
     * start when there is none. NoTab stays NoTab, and on an empty strip the
     * index comes back as it was.
     */
    method IndexOfNextNonPhantomTab(index: int, ignoreIndex: int) returns (r: int)
      ensures index == NoTab ==> r == NoTab
      ensures index != NoTab && |tabs| == 0 ==> r == index
      ensures index != NoTab && |tabs| > 0 ==>
                var start := Min(|tabs| - 1, Max(0, index));
                0 <= r < |tabs| &&
                (forall j :: 0 <= j < |tabs| && Ahead(start, j, |tabs|) < Ahead(start, r, |tabs|) ==>
                   j == ignoreIndex || IsPhantom(tabs[j])) &&
                ((r != ignoreIndex && !IsPhantom(tabs[r])) ||
                 (r == start && forall j :: 0 <= j < |tabs| ==> j == ignoreIndex || IsPhantom(tabs[j])))
    {
      if index == NoTab {
        return NoTab;
      }
      if |tabs| == 0 {
        return index;
      }
      var n := |tabs|;
      var i := Min(n - 1, Max(0, index));
      var start := i;
      while true
        invariant 0 <= i < n
        invariant i == start || 0 < Ahead(start, i, n)
        invariant forall j :: 0 <= j < n && Ahead(start, j, n) < Ahead(start, i, n) ==> j == ignoreIndex || IsPhantom(tabs[j])
        decreases if i == start then n else n - Ahead(start, i, n)
      {
        if i != ignoreIndex && !IsPhantomTab(i) {
          return i;
        }
        StepForwardWraps(i, n);
        i := (i + 1) % n;
        if i == start {
          break;
        }
      }
      return start;
    }

    /**
     * Removes the tab at `index` and returns its contents; returns None and
     * changes nothing on an empty strip. `nextSelected` is the order
     * controller's choice of the tab to select when the selected one goes.
     */
    method DetachTabContentsAt(index: int, nextSelected: int) returns (removed: Option<int>)
      requires Valid()
      requires |tabs| > 0 ==> 0 <= index < |tabs|
      requires |tabs| > 0 && index == selected && HasLive(RemoveAt(tabs, index)) ==> nextSelected != NoTab
      modifies this
      ensures Valid()
      ensures |old(tabs)| == 0 ==> removed == None && tabs == old(tabs) && selected == old(selected) && closingAll == old(closingAll)
      ensures |old(tabs)| > 0 ==>
                removed == Some(old(tabs)[index].contents) &&
                tabs == RemoveAt(old(tabs), index) &&
                closingAll == (old(closingAll) || !HasLive(tabs))
      ensures |old(tabs)| > 0 && !HasLive(tabs) ==> selected == old(selected)
      ensures |old(tabs)| > 0 && HasLive(tabs) && index == old(selected) ==>
                0 <= selected < |tabs| && !IsPhantom(tabs[selected]) &&
                var start := Min(|tabs| - 1, Max(0, nextSelected));
                forall j :: 0 <= j < |tabs| && Ahead(start, j, |tabs|) < Ahead(start, selected, |tabs|) ==>
                  IsPhantom(tabs[j])
      ensures |old(tabs)| > 0 && HasLive(tabs) && index < old(selected) ==>
                selected == old(selected) - 1 && (old(selected) < |old(tabs)| ==> tabs[selected] == old(tabs)[old(selected)])
      ensures |old(tabs)| > 0 && HasLive(tabs) && index > old(selected) ==>
                selected == old(selected) && (0 <= selected ==> tabs[selected] == old(tabs)[old(selected)])
    {
      if |tabs| == 0 {
        return None;
      }
      var removedContents := tabs[index].contents;
      RemoveKeepsMiniPrefix(tabs, index);
      RemoveKeepsDistinct(tabs, index);
      RemoveAtIndex(tabs, index);
      tabs := RemoveAt(tabs, index);
      var next := IndexOfNextNonPhantomTab(nextSelected, NoTab);
      var live := HasNonPhantomTabs();
      if !live {
        closingAll := true;
      }
      if live {
        if index == selected {
          assert next != NoTab;
          assert 0 <= next < |tabs| && !IsPhantom(tabs[next]) by {
            var j :| 0 <= j < |tabs| && !IsPhantom(tabs[j]);
          }
          assert tabs[next].contents != removedContents by {
            assert tabs[next] == old(tabs)[if next < index then next else next + 1];
          }
          ChangeSelectedContentsFrom(Some(removedContents), next);
        } else if index < selected {
          selected := selected - 1;
        }
      }
      return Some(removedContents);
    }

    /**
     * Moves the tab at `index` to `toPosition`. The selection moves with the
     * tab when asked to, or when it was that tab; otherwise it follows the tab
     * that was selected.
     */
    method MoveTabContentsAtImpl(index: int, toPosition: int, selectAfterMove: bool)
      requires ContainsIndex(index) && ContainsIndex(toPosition)
      modifies this
      ensures tabs == MoveTo(old(tabs), index, toPosition)
      ensures selected == MovedSelection(old(selected), index, toPosition, selectAfterMove)
      ensures closingAll == old(closingAll)
    {
      var moved := tabs[index];
      tabs := RemoveAt(tabs, index);
      tabs := InsertAt(tabs, toPosition, moved);
      if selectAfterMove || index == selected {
        selected := toPosition;
      } else if index < selected && toPosition >= selected {
        selected := selected - 1;
      } else if index > selected && toPosition <= selected {
        selected := selected + 1;
      }
    }

    /**
     * Moves a tab, unless it would not move or would cross the boundary
     * between mini and other tabs.
     */
    method MoveTabContentsAt(index: int, toPosition: int, selectAfterMove: bool)
      requires Valid()
      requires ContainsIndex(index) && ContainsIndex(toPosition)
      modifies this
      ensures Valid()
      ensures closingAll == old(closingAll)
      ensures var k := FirstNonMini(old(tabs));
              if index == toPosition || (index < k) != (toPosition < k)
              then tabs == old(tabs) && selected == old(selected)
              else tabs == MoveTo(old(tabs), index, toPosition) &&
                   selected == MovedSelection(old(selected), index, toPosition, selectAfterMove)
      ensures !selectAfterMove && 0 <= old(selected) < |old(tabs)| ==>
                0 <= selected < |tabs| && tabs[selected] == old(tabs)[old(selected)]
    {
      if index == toPosition {
        return;
      }
      var firstNonMini := IndexOfFirstNonMiniTab();
      if (index < firstNonMini && toPosition >= firstNonMini) ||
         (toPosition < firstNonMini && index >= firstNonMini) {
        return;
      }
      MoveKeepsMiniPrefix(tabs, index, toPosition);
      MoveKeepsDistinct(tabs, index, toPosition);
      if !selectAfterMove && 0 <= selected < |tabs| {
        MoveKeepsSelectedTab(tabs, index, toPosition, selected);
      }
      MoveTabContentsAtImpl(index, toPosition, selectAfterMove);
    }

    /**
     * Pins or unpins the tab at `index`: the new strip and selection are
     * PinnedStrip and PinnedSelection of the old ones.
     */
    method SetTabPinned(index: int, pinned: bool)
      requires Valid() && ContainsIndex(index)
      modifies this
      ensures Valid()
      ensures closingAll == old(closingAll)
      ensures tabs == PinnedStrip(old(tabs), index, pinned)
      ensures selected == PinnedSelection(old(tabs), old(selected), index, pinned)
    {
      ghost var before := tabs;
      if tabs[index].pinned == pinned {
      } else if tabs[index].app {
        if pinned {
          tabs := WithPinned(tabs, index, pinned);
        }
      } else {
        var firstNonMini := IndexOfFirstNonMiniTab();
        tabs := WithPinned(tabs, index, pinned);
        if pinned && index != firstNonMini {
          MoveTabContentsAtImpl(index, firstNonMini, false);
        } else if !pinned && index + 1 != firstNonMini {
          MiniExactlyBeforeFirstNonMini(before);
          MoveTabContentsAtImpl(index, firstNonMini - 1, false);
        }
      }
      assert tabs == PinnedStrip(before, index, pinned);
      PinnedStripValid(before, index, pinned);
    }

    /**
     * The indices a context-menu command closes, largest first: every tab
     * that is not mini and not the one at `index`, to its right for
     * close-tabs-to-right and anywhere for close-other-tabs; none for any
     * other command.
     */
    method GetIndicesClosedByCommand(index: int, id: ContextMenuCommand) returns (indices: seq<int>)
      requires ContainsIndex(index)
      ensures id == OtherCommand ==> indices == []
      ensures forall a, b :: 0 <= a < b < |indices| ==> indices[a] > indices[b]
      ensures id != OtherCommand ==>
                var start := if id == CommandCloseTabsToRight then index + 1 else 0;
                forall i :: i in indices <==> start <= i < |tabs| && i != index && !IsMini(tabs[i])
    {
      indices := [];
      if id != CommandCloseTabsToRight && id != CommandCloseOtherTabs {
        return;
      }
      var start := if id == CommandCloseTabsToRight then index + 1 else 0;
      var i := |tabs| - 1;
      while i >= start
        invariant start - 1 <= i < |tabs|
        invariant forall a, b :: 0 <= a < b < |indices| ==> indices[a] > indices[b]
        invariant forall a :: 0 <= a < |indices| ==> indices[a] > i
        invariant forall x :: x in indices <==> i < x < |tabs| && x != index && !IsMini(tabs[x])
      {
        if i != index && !IsMiniTab(i) {
          indices := indices + [i];
        }
        i := i - 1;
      }
    }

    /**
     * Selects the next (or previous) tab, cyclically, skipping phantom tabs;
     * when every other tab is a phantom the selection comes back to where it
     * was. Nothing happens on an empty strip.
     */
    method SelectRelativeTab(next: bool)
      requires Valid()
      requires |tabs| > 0 ==> 0 <= selected < |tabs|
      modifies this
      ensures Valid()
      ensures tabs == old(tabs) && closingAll == old(closingAll)
      ensures |tabs| == 0 ==> selected == old(selected)
      ensures |tabs| > 0 ==>
                0 <= selected < |tabs| &&
                (selected == old(selected) || !IsPhantom(tabs[selected])) &&
                forall j :: 0 <= j < |tabs| && Steps(old(selected), j, |tabs|, next) < Steps(old(selected), selected, |tabs|, next) ==>
                  IsPhantom(tabs[j])
    {
      if |tabs| == 0 {
        return;
      }
      var n := |tabs|;
      var index := selected;
      StepIndexAdvances(selected, index, n, next);
      index := StepIndex(index, n, next);
      while index != selected && IsPhantomTab(index)
        invariant tabs == old(tabs) && selected == old(selected) && closingAll == old(closingAll)
        invariant 0 <= index < n
        invariant 1 <= Steps(selected, index, n, next) <= n
        invariant index != selected ==> Steps(selected, index, n, next) < n
        invariant forall j :: 0 <= j < n && Steps(selected, j, n, next) < Steps(selected, index, n, next) ==> IsPhantom(tabs[j])
        decreases n - Steps(selected, index, n, next)
      {
        ghost var passed := index;
        StepIndexAdvances(selected, index, n, next);
        index := StepIndex(index, n, next);
        PassedPhantoms(tabs, selected, passed, index, next);
      }
      SelectTabContentsAt(index);
    }

    /**
     * The first tab after `startIndex` opened by `opener` (or, with
     * `useGroup`, in its group) that is not a phantom; failing that, the
     * nearest such tab before `startIndex`; NoTab when there is none.
     */
    method GetIndexOfNextTabContentsOpenedBy(opener: int, startIndex: int, useGroup: bool) returns (r: int)
      requires ContainsIndex(startIndex)
      ensures r == NoTab || (0 <= r < |tabs| && r != startIndex &&
                             OpenerMatches(tabs[r], opener, useGroup) && !IsPhantom(tabs[r]))
      ensures forall j :: startIndex < j < |tabs| && (r < startIndex || j < r) ==>
                !OpenerMatches(tabs[j], opener, useGroup) || IsPhantom(tabs[j])
      ensures forall j :: r < j < startIndex ==>
                !OpenerMatches(tabs[j], opener, useGroup) || IsPhantom(tabs[j])
    {
      var i := startIndex + 1;
      while i < |tabs|
        invariant startIndex < i <= |tabs|
        invariant forall j :: startIndex < j < i ==> !OpenerMatches(tabs[j], opener, useGroup) || IsPhantom(tabs[j])
      {
        if OpenerMatches(tabs[i], opener, useGroup) && !IsPhantomTab(i) {
          return i;
        }
        i := i + 1;
      }
      i := startIndex - 1;
      while i >= 0
        invariant -1 <= i < startIndex
        invariant forall j :: i < j < startIndex ==> !OpenerMatches(tabs[j], opener, useGroup) || IsPhantom(tabs[j])
      {
        if OpenerMatches(tabs[i], opener, useGroup) && !IsPhantomTab(i) {
          return i;
        }
        i := i - 1;
      }
      return NoTab;
    }

    /** The leftmost tab before `startIndex` whose opener is `opener` and that is not a phantom; NoTab when there is none. */
    method GetIndexOfFirstTabContentsOpenedBy(opener: int, startIndex: int) returns (r: int)
      requires ContainsIndex(startIndex)
      ensures r == NoTab || (0 <= r < startIndex && tabs[r].opener == Some(opener) && !IsPhantom(tabs[r]))
      ensures forall j :: 0 <= j < startIndex && (r == NoTab || j < r) ==>
                tabs[j].opener != Some(opener) || IsPhantom(tabs[j])
    {
      var i := 0;
      while i < startIndex
        invariant 0 <= i <= startIndex
        invariant forall j :: 0 <= j < i ==> tabs[j].opener != Some(opener) || IsPhantom(tabs[j])
      {
        if tabs[i].opener == Some(opener) && !IsPhantomTab(i) {
          return i;
        }
        i := i + 1;
      }
      return NoTab;
    }

    /** The rightmost tab after `startIndex` whose opener is `opener` and that is not a phantom; NoTab when there is none. */
    method GetIndexOfLastTabContentsOpenedBy(opener: int, startIndex: int) returns (r: int)
      requires ContainsIndex(startIndex)
      ensures r == NoTab || (startIndex < r < |tabs| && tabs[r].opener == Some(opener) && !IsPhantom(tabs[r]))
      ensures forall j :: startIndex < j < |tabs| && j > r ==>
                tabs[j].opener != Some(opener) || IsPhantom(tabs[j])
    {
      var i := |tabs| - 1;
      while i > startIndex
        invariant startIndex <= i < |tabs|
        invariant forall j :: i < j < |tabs| ==> tabs[j].opener != Some(opener) || IsPhantom(tabs[j])
      {
        if tabs[i].opener == Some(opener) && !IsPhantomTab(i) {
          return i;
        }
        i := i - 1;
      }
      return NoTab;
    }
  }
}
