/**
 * The list handling of the full-page tab overview (overview.js): grouping
 * tabs by tab group and by domain, filtering windows and tabs for display,
 * moving a tab locally after a drag, closing tabs and keeping the set of
 * tabs whose close is still pending.
 *
 * The windows are the data `chrome.windows.getAll({populate: true})`
 * returns; the overview's own state lives in the class `Overview`. URL
 * parsing is the parameter `hostOf` (None where `new URL` throws). The DOM,
 * the chrome API calls and the screenshot capture are not modelled.
 */
module TabsOverview {
  import opened Util
  import M = JsMap

  /** The fields of a `chrome.tabs.Tab` the overview reads. */
  datatype Tab = Tab(id: int, windowId: int, index: int, title: string, url: string, pinned: bool, groupId: int)

  /** A window with its tabs in strip order; `kind` is the window's `type`. */
  datatype Win = Win(id: int, kind: string, tabs: seq<Tab>)

  // ---------------------------------------------------------------------
  // groupTabsByGroup
  // ---------------------------------------------------------------------

  /** A run of adjacent tabs that share a group key. */
  datatype TabGroup = TabGroup(groupId: int, tabs: seq<Tab>)

  /** `tab.groupId || -1`: a group id of 0 is falsy and reads as -1. */
  function GroupKey(t: Tab): (r: int)
    ensures r != 0
    ensures t.groupId != 0 ==> r == t.groupId
  {
    if t.groupId == 0 then -1 else t.groupId
  }

  /** One more tab: it joins the last run when the keys agree, else opens a new run. */
  function Extend(gs: seq<TabGroup>, t: Tab): seq<TabGroup> {
    if |gs| > 0 && gs[|gs| - 1].groupId == GroupKey(t)
    then gs[..|gs| - 1] + [TabGroup(GroupKey(t), gs[|gs| - 1].tabs + [t])]
    else gs + [TabGroup(GroupKey(t), [t])]
  }

  /** The runs the loop has built after the given prefix of tabs, the open run last. */
  function Runs(tabs: seq<Tab>): (r: seq<TabGroup>)
    ensures MaximalRuns(r)
  {
    if |tabs| == 0 then []
    else
      var before := Runs(tabs[..|tabs| - 1]);
      ExtendMaximal(before, tabs[|tabs| - 1]);
      Extend(before, tabs[|tabs| - 1])
  }

  /** The groups' tabs concatenated in order. */
  function Members(gs: seq<TabGroup>): seq<Tab> {
    if |gs| == 0 then [] else Members(gs[..|gs| - 1]) + gs[|gs| - 1].tabs
  }

  /** No run is empty. */
  ghost predicate NonEmptyRuns(gs: seq<TabGroup>) {
    forall i :: 0 <= i < |gs| ==> |gs[i].tabs| > 0
  }

  /** Every tab carries the key of its run. */
  ghost predicate KeyedRuns(gs: seq<TabGroup>) {
    forall i, j :: 0 <= i < |gs| && 0 <= j < |gs[i].tabs| ==> GroupKey(gs[i].tabs[j]) == gs[i].groupId
  }

  /** Neighbouring runs have different keys. */
  ghost predicate SeparatedRuns(gs: seq<TabGroup>) {
    forall i :: 0 < i < |gs| ==> gs[i - 1].groupId != gs[i].groupId
  }

  /** The runs are maximal: none is empty, every tab carries its run's key and neighbours differ. */
  ghost predicate MaximalRuns(gs: seq<TabGroup>) {
    NonEmptyRuns(gs) && KeyedRuns(gs) && SeparatedRuns(gs)
  }

  lemma ExtendMembers(gs: seq<TabGroup>, t: Tab)
    ensures Members(Extend(gs, t)) == Members(gs) + [t]
  {
    if |gs| > 0 && gs[|gs| - 1].groupId == GroupKey(t) {
      var m := |gs| - 1;
      var last := TabGroup(GroupKey(t), gs[m].tabs + [t]);
      assert (gs[..m] + [last])[..m] == gs[..m];
      assert gs[..m + 1] == gs;
    } else {
      assert (gs + [TabGroup(GroupKey(t), [t])])[..|gs|] == gs;
    }
  }

  lemma ExtendMaximal(gs: seq<TabGroup>, t: Tab)
    requires MaximalRuns(gs)
    ensures MaximalRuns(Extend(gs, t))
  {
    var r := Extend(gs, t);
    if |gs| > 0 && gs[|gs| - 1].groupId == GroupKey(t) {
      var m := |gs| - 1;
      assert forall i :: 0 <= i < m ==> r[i] == gs[i];
      assert forall j :: 0 <= j < |gs[m].tabs| ==> r[m].tabs[j] == gs[m].tabs[j];
    } else {
      assert forall i :: 0 <= i < |gs| ==> r[i] == gs[i];
    }
  }

  /** The runs after one more tab extend the runs before it. */
  lemma RunsStep(tabs: seq<Tab>, i: nat)
    requires i < |tabs|
    ensures Runs(tabs[..i + 1]) == Extend(Runs(tabs[..i]), tabs[i])
  {
    var next := tabs[..i + 1];
    assert next[..|next| - 1] == tabs[..i];
  }

  /** The runs, concatenated, give back the tabs in their order. */
  lemma {:induction false} RunsMembers(tabs: seq<Tab>)
    ensures Members(Runs(tabs)) == tabs
  {
    if |tabs| > 0 {
      var init, t := tabs[..|tabs| - 1], tabs[|tabs| - 1];
      assert init + [t] == tabs;
      var before := Runs(init);
      RunsMembers(init);
      ExtendMembers(before, t);
    }
  }

  /** The first tab opens the first run. */
  lemma RunsFirst(tabs: seq<Tab>)
    requires 0 < |tabs|
    ensures Runs(tabs[..1]) == [TabGroup(GroupKey(tabs[0]), [tabs[0]])]
  {
    RunsStep(tabs, 0);
    assert Runs(tabs[..0]) == [];
  }

  /** One more tab after the open run `(key, open)`: it joins the run on an equal key, else opens a new one. */
  lemma OpenRunStep(tabs: seq<Tab>, i: nat, groups: seq<TabGroup>, key: int, open: seq<Tab>)
    requires 0 < i < |tabs| && groups + [TabGroup(key, open)] == Runs(tabs[..i])
    ensures GroupKey(tabs[i]) == key ==> groups + [TabGroup(key, open + [tabs[i]])] == Runs(tabs[..i + 1])
    ensures GroupKey(tabs[i]) != key
            ==> groups + [TabGroup(key, open)] + [TabGroup(GroupKey(tabs[i]), [tabs[i]])] == Runs(tabs[..i + 1])
  {
    RunsStep(tabs, i);
    var prev := groups + [TabGroup(key, open)];
    assert prev[..|prev| - 1] == groups;
  }

  /** `groupTabsByGroup`: one pass with the open run in `current`/`currentTabs`. */
  method GroupTabsByGroup(tabs: seq<Tab>) returns (groups: seq<TabGroup>)
    ensures groups == Runs(tabs)
  {
    groups := [];
    var current: Option<int> := None;
    var currentTabs: seq<Tab> := [];
    var i := 0;
    while i < |tabs|
      invariant 0 <= i <= |tabs|
      invariant i == 0 ==> groups == [] && current == None && currentTabs == []
      invariant i > 0 ==> current.Some? && |currentTabs| > 0
                          && groups + [TabGroup(current.value, currentTabs)] == Runs(tabs[..i])
    {
      var key := GroupKey(tabs[i]);
      if i == 0 {
        RunsFirst(tabs);
      } else {
        OpenRunStep(tabs, i, groups, current.value, currentTabs);
      }
      if Some(key) != current {
        if |currentTabs| > 0 {
          groups := groups + [TabGroup(current.value, currentTabs)];
        }
        current := Some(key);
        currentTabs := [];
        assert currentTabs + [tabs[i]] == [tabs[i]];
      }
      currentTabs := currentTabs + [tabs[i]];
      assert groups + [TabGroup(current.value, currentTabs)] == Runs(tabs[..i + 1]);
      i := i + 1;
    }
    if |currentTabs| > 0 {
      groups := groups + [TabGroup(current.value, currentTabs)];
    }
    assert tabs[..i] == tabs;
  }

  // ---------------------------------------------------------------------
  // groupTabsByDomain
  // ---------------------------------------------------------------------

  /** `getDomain`: the host name of the URL, or "other" when it does not parse. */
  function Domain(url: string, hostOf: string -> Option<string>): string {
    match hostOf(url)
    case Some(host) => host
    case None => "other"
  }

  /** The tabs of domain `d`, in their original order. */
  function OfDomain(tabs: seq<Tab>, d: string, hostOf: string -> Option<string>): (r: seq<Tab>)
    ensures forall t :: t in r <==> t in tabs && Domain(t.url, hostOf) == d
  {
    if |tabs| == 0 then []
    else
      var n := |tabs| - 1;
      var rest := OfDomain(tabs[..n], d, hostOf);
      assert forall t :: t in tabs <==> t in tabs[..n] || t == tabs[n] by {
        assert tabs == tabs[..n] + [tabs[n]];
      }
      if Domain(tabs[n].url, hostOf) == d then rest + [tabs[n]] else rest
  }

  /** The `forEach` that fills the Map: a domain's list is created on its first tab and appended to after. */
  function Collect(tabs: seq<Tab>, hostOf: string -> Option<string>): M.Entries<string, seq<Tab>> {
    if |tabs| == 0 then []
    else
      var e := Collect(tabs[..|tabs| - 1], hostOf);
      var t := tabs[|tabs| - 1];
      var d := Domain(t.url, hostOf);
      match M.Get(e, d)
      case None => M.Put(e, d, [t])
      case Some(ts) => M.Put(e, d, ts + [t])
  }

  /** The Map holds a domain exactly when some tab has it, with that domain's tabs in order. */
  lemma {:induction false} CollectGet(tabs: seq<Tab>, hostOf: string -> Option<string>, d: string)
    ensures M.Get(Collect(tabs, hostOf), d)
            == if |OfDomain(tabs, d, hostOf)| > 0 then Some(OfDomain(tabs, d, hostOf)) else None
  {
    if |tabs| > 0 {
      var n := |tabs| - 1;
      var t := tabs[n];
      var e := Collect(tabs[..n], hostOf);
      var dt := Domain(t.url, hostOf);
      CollectGet(tabs[..n], hostOf, d);
      CollectGet(tabs[..n], hostOf, dt);
      var ts := if M.Get(e, dt).Some? then M.Get(e, dt).value + [t] else [t];
      assert Collect(tabs, hostOf) == M.Put(e, dt, ts);
      M.PutGet(e, dt, ts);
      if d == dt {
        assert OfDomain(tabs, d, hostOf) == OfDomain(tabs[..n], d, hostOf) + [t];
        if M.Get(e, dt).None? {
          assert OfDomain(tabs[..n], d, hostOf) == [];
          assert OfDomain(tabs, d, hostOf) == [t];
        }
      } else {
        assert OfDomain(tabs, d, hostOf) == OfDomain(tabs[..n], d, hostOf);
      }
    }
  }

  /** The Map's keys stay distinct. */
  lemma {:induction false} CollectDistinct(tabs: seq<Tab>, hostOf: string -> Option<string>)
    ensures M.Distinct(Collect(tabs, hostOf))
  {
    if |tabs| > 0 {
      var n := |tabs| - 1;
      var e := Collect(tabs[..n], hostOf);
      var d := Domain(tabs[n].url, hostOf);
      CollectDistinct(tabs[..n], hostOf);
      match M.Get(e, d)
      case None => M.PutKeepsDistinct(e, d, [tabs[n]]);
      case Some(ts) => M.PutKeepsDistinct(e, d, ts + [tabs[n]]);
    }
  }

  /** Code-point order on strings, the order `localeCompare` gives host names. */
  predicate LexLe(a: string, b: string) {
    |a| == 0 || (|b| > 0 && (a[0] < b[0] || (a[0] == b[0] && LexLe(a[1..], b[1..]))))
  }

  lemma {:induction false} LexLeTotal(a: string, b: string)
    ensures LexLe(a, b) || LexLe(b, a)
  {
    if |a| > 0 && |b| > 0 && a[0] == b[0] {
      LexLeTotal(a[1..], b[1..]);
    }
  }

  lemma {:induction false} LexLeTrans(a: string, b: string, c: string)
    requires LexLe(a, b) && LexLe(b, c)
    ensures LexLe(a, c)
  {
    if |a| > 0 && a[0] == b[0] && b[0] == c[0] {
      LexLeTrans(a[1..], b[1..], c[1..]);
    }
  }

  /** The comparator of the sort: more tabs first, then the domain in ascending order. */
  predicate GroupBefore(a: (string, seq<Tab>), b: (string, seq<Tab>)) {
    |a.1| > |b.1| || (|a.1| == |b.1| && LexLe(a.0, b.0))
  }

  lemma GroupBeforeTotal(a: (string, seq<Tab>), b: (string, seq<Tab>))
    ensures GroupBefore(a, b) || GroupBefore(b, a)
  {
    LexLeTotal(a.0, b.0);
  }

  lemma GroupBeforeTrans(a: (string, seq<Tab>), b: (string, seq<Tab>), c: (string, seq<Tab>))
    requires GroupBefore(a, b) && GroupBefore(b, c)
    ensures GroupBefore(a, c)
  {
    if |a.1| == |b.1| == |c.1| {
      LexLeTrans(a.0, b.0, c.0);
    }
  }

  ghost predicate SortedGroups(s: seq<(string, seq<Tab>)>) {
    forall i, j :: 0 <= i < j < |s| ==> GroupBefore(s[i], s[j])
  }

  function InsertGroup(g: (string, seq<Tab>), s: seq<(string, seq<Tab>)>): seq<(string, seq<Tab>)> {
    if |s| == 0 then [g]
    else if GroupBefore(g, s[0]) then [g] + s
    else [s[0]] + InsertGroup(g, s[1..])
  }

  /** `Array.prototype.sort` with the comparator. The comparator is a total order on distinct domains, so every correct sort gives this result. */
  function SortGroups(s: seq<(string, seq<Tab>)>): (r: seq<(string, seq<Tab>)>)
    ensures SortedGroups(r)
    ensures multiset(r) == multiset(s)
  {
    if |s| == 0 then []
    else
      var rest := SortGroups(s[1..]);
      InsertGroupSorted(s[0], rest);
      assert s == [s[0]] + s[1..];
      InsertGroup(s[0], rest)
  }

  lemma {:induction false} InsertGroupSorted(g: (string, seq<Tab>), s: seq<(string, seq<Tab>)>)
    requires SortedGroups(s)
    ensures SortedGroups(InsertGroup(g, s))
    ensures multiset(InsertGroup(g, s)) == multiset(s) + multiset{g}
  {
    InsertGroupMultiset(g, s);
    if |s| > 0 {
      if GroupBefore(g, s[0]) {
        forall j | 0 <= j < |s| ensures GroupBefore(g, s[j]) {
          if j > 0 { GroupBeforeTrans(g, s[0], s[j]); }
        }
        var r := [g] + s;
        forall i, j | 0 <= i < j < |r| ensures GroupBefore(r[i], r[j]) {
          assert r[j] == s[j - 1];
          if i > 0 { assert r[i] == s[i - 1]; }
        }
      } else {
        GroupBeforeTotal(g, s[0]);
        var tail := s[1..];
        assert SortedGroups(tail) by {
          forall i, j | 0 <= i < j < |tail| ensures GroupBefore(tail[i], tail[j]) {
            assert tail[i] == s[i + 1] && tail[j] == s[j + 1];
          }
        }
        InsertGroupSorted(g, tail);
        HeadBeforeInserted(g, s);
        var rest := InsertGroup(g, tail);
        var r := [s[0]] + rest;
        assert InsertGroup(g, s) == r;
        forall i, j | 0 <= i < j < |r| ensures GroupBefore(r[i], r[j]) {
          assert r[j] == rest[j - 1];
          if i > 0 { assert r[i] == rest[i - 1]; }
        }
      }
    }
  }

  lemma {:induction false} InsertGroupMultiset(g: (string, seq<Tab>), s: seq<(string, seq<Tab>)>)
    ensures multiset(InsertGroup(g, s)) == multiset(s) + multiset{g}
  {
    if |s| > 0 {
      assert s == [s[0]] + s[1..];
      if !GroupBefore(g, s[0]) {
        InsertGroupMultiset(g, s[1..]);
      }
    }
  }

  /** The head of a sorted list comes before every entry of the rest with `g` inserted, when it comes before `g`. */
  lemma HeadBeforeInserted(g: (string, seq<Tab>), s: seq<(string, seq<Tab>)>)
    requires SortedGroups(s) && |s| > 0 && GroupBefore(s[0], g)
    ensures forall x :: x in InsertGroup(g, s[1..]) ==> GroupBefore(s[0], x)
  {
    var rest := InsertGroup(g, s[1..]);
    InsertGroupMultiset(g, s[1..]);
    forall x | x in rest ensures GroupBefore(s[0], x) {
      assert x in multiset(rest);
      if x != g {
        assert x in multiset(s[1..]);
        var k :| 0 <= k < |s[1..]| && s[1..][k] == x;
        assert s[k + 1] == x;
      }
    }
  }

  /**
   * `groupTabsByDomain`: the Map's entries, sorted by the comparator. Each
   * tab is in exactly one group, a group holds the tabs of its domain in
   * their original order and is never empty, and the groups run from the
   * largest down, ties by domain.
   */
  function GroupTabsByDomain(tabs: seq<Tab>, hostOf: string -> Option<string>): (r: seq<(string, seq<Tab>)>)
    ensures SortedGroups(r)
    ensures forall i :: 0 <= i < |r| ==> r[i].1 == OfDomain(tabs, r[i].0, hostOf) && |r[i].1| > 0
    ensures forall i, j :: 0 <= i < j < |r| ==> r[i].0 != r[j].0
    ensures forall t :: t in tabs ==> exists i :: 0 <= i < |r| && r[i].0 == Domain(t.url, hostOf)
  {
    DomainGroups(tabs, hostOf);
    SortGroups(Collect(tabs, hostOf))
  }

  lemma TwiceInMultiset<T>(s: seq<T>, i: nat, j: nat)
    requires i < j < |s| && s[i] == s[j]
    ensures multiset(s)[s[i]] >= 2
  {
    assert s == s[..j] + [s[j]] + s[j + 1..];
    assert s[i] in s[..j];
  }

  /** The collected entries, once sorted, carry the guarantees of `GroupTabsByDomain`. */
  lemma DomainGroups(tabs: seq<Tab>, hostOf: string -> Option<string>)
    ensures var r := SortGroups(Collect(tabs, hostOf));
            SortedGroups(r)
            && (forall i :: 0 <= i < |r| ==> r[i].1 == OfDomain(tabs, r[i].0, hostOf) && |r[i].1| > 0)
            && (forall i, j :: 0 <= i < j < |r| ==> r[i].0 != r[j].0)
            && (forall t :: t in tabs ==> exists i :: 0 <= i < |r| && r[i].0 == Domain(t.url, hostOf))
  {
    var e := Collect(tabs, hostOf);
    var r := SortGroups(e);
    CollectDistinct(tabs, hostOf);
    forall i | 0 <= i < |r| ensures r[i].1 == OfDomain(tabs, r[i].0, hostOf) && |r[i].1| > 0 {
      assert r[i] in multiset(e);
      var k :| 0 <= k < |e| && e[k] == r[i];
      M.GetEntry(e, k);
      CollectGet(tabs, hostOf, r[i].0);
    }
    forall i, j | 0 <= i < j < |r| ensures r[i].0 != r[j].0 {
      if r[i] == r[j] {
        TwiceInMultiset(r, i, j);
        M.DistinctOnce(e, r[i]);
      }
    }
    forall t | t in tabs ensures exists i :: 0 <= i < |r| && r[i].0 == Domain(t.url, hostOf) {
      var d := Domain(t.url, hostOf);
      assert t in OfDomain(tabs, d, hostOf);
      CollectGet(tabs, hostOf, d);
      var k :| 0 <= k < |e| && e[k].0 == d;
      assert e[k] in multiset(r);
      var i :| 0 <= i < |r| && r[i] == e[k];
    }
  }

  // ---------------------------------------------------------------------
  // getFilteredTabs
  // ---------------------------------------------------------------------

  /** The window filter: normal windows only, and only the chosen one unless it is "all". */
  predicate Shown(w: Win, filter: string) {
    w.kind == "normal" && (filter == "all" || IntDecimal(w.id) == filter)
  }

  function ShownWindows(windows: seq<Win>, filter: string): (r: seq<Win>)
    ensures forall w :: w in r <==> w in windows && Shown(w, filter)
    ensures Subseq(r, windows)
  {
    if |windows| == 0 then []
    else
      var rest := ShownWindows(windows[1..], filter);
      assert forall w :: w in windows <==> w == windows[0] || w in windows[1..];
      if Shown(windows[0], filter) then [windows[0]] + rest else rest
  }

  /** The search test; the query is already lower-case when it is stored. */
  predicate TabMatches(t: Tab, query: string) {
    Contains(Lower(t.title), query) || Contains(Lower(t.url), query)
  }

  function MatchingTabs(tabs: seq<Tab>, query: string): (r: seq<Tab>)
    ensures forall t :: t in r <==> t in tabs && TabMatches(t, query)
    ensures Subseq(r, tabs)
  {
    if |tabs| == 0 then []
    else
      var rest := MatchingTabs(tabs[1..], query);
      assert forall t :: t in tabs <==> t == tabs[0] || t in tabs[1..];
      if TabMatches(tabs[0], query) then [tabs[0]] + rest else rest
  }

  /** A window narrowed to its matching tabs. */
  function Searched(w: Win, query: string): Win {
    w.(tabs := MatchingTabs(w.tabs, query))
  }

  /** The ids of the windows, in order. */
  function WindowIds(windows: seq<Win>): seq<int> {
    if |windows| == 0 then [] else [windows[0].id] + WindowIds(windows[1..])
  }

  function SearchWindows(windows: seq<Win>, query: string): (r: seq<Win>)
    ensures forall w :: w in r <==> |w.tabs| > 0 && exists v :: v in windows && w == Searched(v, query)
    ensures Subseq(WindowIds(r), WindowIds(windows))
  {
    if |windows| == 0 then []
    else
      var rest := SearchWindows(windows[1..], query);
      var w := Searched(windows[0], query);
      assert forall v :: v in windows <==> v == windows[0] || v in windows[1..];
      if |w.tabs| > 0 then [w] + rest else rest
  }

  /**
   * `getFilteredTabs`: the normal windows the window filter lets through.
   * With a non-empty query every window keeps only its matching tabs and
   * windows left without tabs are dropped; without one the windows are
   * returned whole, empty ones included.
   */
  function GetFilteredTabs(windows: seq<Win>, filter: string, query: string): (r: seq<Win>)
    ensures forall w :: w in r ==> w.kind == "normal" && (filter == "all" || IntDecimal(w.id) == filter)
    ensures query == "" ==> forall w :: w in r <==> w in windows && Shown(w, filter)
    ensures query != "" ==> forall w :: w in r ==> |w.tabs| > 0 && forall t :: t in w.tabs ==> TabMatches(t, query)
    ensures query != "" ==> forall v, t :: v in windows && Shown(v, filter) && t in v.tabs && TabMatches(t, query)
                                       ==> Searched(v, query) in r && t in Searched(v, query).tabs
    ensures query != "" ==> forall w :: w in r <==> |w.tabs| > 0 && exists v :: v in windows && Shown(v, filter) && w == Searched(v, query)
    ensures query == "" ==> Subseq(r, windows)
    ensures Subseq(WindowIds(r), WindowIds(windows))
  {
    var shown := ShownWindows(windows, filter);
    SubseqWindowIds(shown, windows);
    if query == "" then shown
    else
      var r := SearchWindows(shown, query);
      SubseqTrans(WindowIds(r), WindowIds(shown), WindowIds(windows));
      r
  }

  /** Keeping some windows in order keeps their ids in order. */
  lemma {:induction false} SubseqWindowIds(a: seq<Win>, b: seq<Win>)
    requires Subseq(a, b)
    ensures Subseq(WindowIds(a), WindowIds(b))
    decreases |b|
  {
    if a != [] {
      if a[0] == b[0] && Subseq(a[1..], b[1..]) {
        SubseqWindowIds(a[1..], b[1..]);
      } else {
        SubseqWindowIds(a, b[1..]);
      }
    }
  }

  // ---------------------------------------------------------------------
  // Context-menu tab selection
  // ---------------------------------------------------------------------

  /** `windows.find(w => w.id === id)`, as the index of the first match. */
  function FindWindow(windows: seq<Win>, id: int): (r: Option<nat>)
    ensures r.Some? ==> r.value < |windows| && windows[r.value].id == id
                        && forall j :: 0 <= j < r.value ==> windows[j].id != id
    ensures r.None? ==> forall j :: 0 <= j < |windows| ==> windows[j].id != id
  {
    if |windows| == 0 then None
    else if windows[0].id == id then Some(0)
    else match FindWindow(windows[1..], id)
      case None => None
      case Some(k) => assert windows[1..][k] == windows[k + 1]; Some(k + 1)
  }

  /** `tabs.findIndex(t => t.id === id)`: the first position holding the id, or -1. */
  function FindTab(tabs: seq<Tab>, id: int): (r: int)
    ensures -1 <= r < |tabs|
    ensures r >= 0 ==> tabs[r].id == id && forall j :: 0 <= j < r ==> tabs[j].id != id
    ensures r == -1 ==> forall j :: 0 <= j < |tabs| ==> tabs[j].id != id
  {
    if |tabs| == 0 then -1
    else if tabs[0].id == id then 0
    else
      var k := FindTab(tabs[1..], id);
      if k == -1 then -1 else assert tabs[1..][k] == tabs[k + 1]; k + 1
  }

  /** The ids of the unpinned tabs, in order. */
  function UnpinnedIds(tabs: seq<Tab>): (r: seq<int>)
    ensures forall id :: id in r <==> exists t :: t in tabs && !t.pinned && t.id == id
  {
    if |tabs| == 0 then []
    else
      var rest := UnpinnedIds(tabs[1..]);
      assert forall t :: t in tabs <==> t == tabs[0] || t in tabs[1..];
      if !tabs[0].pinned then [tabs[0].id] + rest else rest
  }

  /** The ids of the unpinned tabs other than `tabId`, in order. */
  function OtherUnpinnedIds(tabs: seq<Tab>, tabId: int): (r: seq<int>)
    ensures forall id :: id in r <==> id != tabId && exists t :: t in tabs && !t.pinned && t.id == id
  {
    if |tabs| == 0 then []
    else
      var rest := OtherUnpinnedIds(tabs[1..], tabId);
      assert forall t :: t in tabs <==> t == tabs[0] || t in tabs[1..];
      if tabs[0].id != tabId && !tabs[0].pinned then [tabs[0].id] + rest else rest
  }

  /** "Close other tabs": nothing when the window is gone, else its unpinned tabs but the clicked one. */
  function CloseOthersSelection(windows: seq<Win>, windowId: int, tabId: int): (r: Option<seq<int>>)
    ensures r.None? <==> FindWindow(windows, windowId).None?
    ensures r.Some? ==> forall id :: id in r.value <==>
              id != tabId && exists t :: t in windows[FindWindow(windows, windowId).value].tabs && !t.pinned && t.id == id
  {
    match FindWindow(windows, windowId)
    case None => None
    case Some(i) => Some(OtherUnpinnedIds(windows[i].tabs, tabId))
  }

  /**
   * "Close tabs to the right": the unpinned tabs after the clicked one.
   * When the clicked tab is not in the window `findIndex` gives -1 and
   * the slice starts at 0, so every unpinned tab is chosen.
   */
  function RightOf(tabs: seq<Tab>, tabId: int): (r: seq<int>)
    ensures forall id :: id in r <==>
              exists j :: FindTab(tabs, tabId) < j < |tabs| && !tabs[j].pinned && tabs[j].id == id
  {
    var from := FindTab(tabs, tabId) + 1;
    var rest := tabs[from..];
    assert forall t :: t in rest <==> exists j :: from <= j < |tabs| && tabs[j] == t by {
      forall t | t in rest ensures exists j :: from <= j < |tabs| && tabs[j] == t {
        var k :| 0 <= k < |rest| && rest[k] == t;
        assert tabs[from + k] == t;
      }
      forall j | from <= j < |tabs| ensures tabs[j] in rest {
        assert rest[j - from] == tabs[j];
      }
    }
    UnpinnedIds(rest)
  }

  /** A clicked tab missing from the window makes "close to the right" choose every unpinned tab. */
  lemma RightOfMissing(tabs: seq<Tab>, tabId: int)
    requires forall j :: 0 <= j < |tabs| ==> tabs[j].id != tabId
    ensures forall id :: id in RightOf(tabs, tabId) <==> id in UnpinnedIds(tabs)
  {
    assert FindTab(tabs, tabId) == -1;
    forall id | id in UnpinnedIds(tabs) ensures id in RightOf(tabs, tabId) {
      var t :| t in tabs && !t.pinned && t.id == id;
      var j :| 0 <= j < |tabs| && tabs[j] == t;
    }
  }

  function CloseRightSelection(windows: seq<Win>, windowId: int, tabId: int): (r: Option<seq<int>>)
    ensures r.None? <==> FindWindow(windows, windowId).None?
    ensures r.Some? ==> r.value == RightOf(windows[FindWindow(windows, windowId).value].tabs, tabId)
  {
    match FindWindow(windows, windowId)
    case None => None
    case Some(i) => Some(RightOf(windows[i].tabs, tabId))
  }

  // ---------------------------------------------------------------------
  // Drag and drop
  // ---------------------------------------------------------------------

  /** The start `splice` uses: a negative index counts from the end, and the result is clamped to [0, len]. */
  function SpliceStart(start: int, len: nat): (r: nat)
    ensures r <= len
    ensures 0 <= start <= len ==> r == start
    ensures start > len ==> r == len
  {
    if start < 0 then (if len + start < 0 then 0 else len + start)
    else if start > len then len
    else start
  }

  /** `s.splice(start, 0, x)` */
  function InsertAt<T>(s: seq<T>, start: int, x: T): (r: seq<T>)
    ensures |r| == |s| + 1
    ensures r[SpliceStart(start, |s|)] == x
    ensures multiset(r) == multiset(s) + multiset{x}
  {
    var k := SpliceStart(start, |s|);
    assert s == s[..k] + s[k..];
    s[..k] + [x] + s[k..]
  }

  /** `s.splice(k, 1)` */
  function RemoveAt<T>(s: seq<T>, k: nat): (r: seq<T>)
    requires k < |s|
    ensures |r| == |s| - 1
    ensures multiset(r) == multiset(s) - multiset{s[k]}
  {
    assert s == s[..k] + [s[k]] + s[k + 1..];
    s[..k] + s[k + 1..]
  }

  /** The index the drop handler passes on: after the target card when dropped on its right half, one less when the tab moves forward in its own window. */
  function DropIndex(dragWindowId: int, dragIndex: int, windowId: int, index: int, after: bool): int {
    var target := if after then index + 1 else index;
    if dragWindowId == windowId && dragIndex < index then target - 1 else target
  }

  /**
   * Within one window (tabs numbered by position; a tab is never dropped on
   * itself) the moved tab lands next to the target card on the side it was
   * dropped: just before it, or just after it.
   */
  lemma DropWithinWindow<T>(s: seq<T>, p: nat, q: nat, after: bool, x: T, w: int)
    requires p < |s| && q < |s| && p != q
    ensures var k := DropIndex(w, p, w, q, after);
            var r := InsertAt(RemoveAt(s, p), k, x);
            0 <= k < |r| && r[k] == x
            && (!after ==> k + 1 < |r| && r[k + 1] == s[q])
            && (after ==> k >= 1 && r[k - 1] == s[q])
  {
    var k := DropIndex(w, p, w, q, after);
    var rest := RemoveAt(s, p);
    var qr := if p < q then q - 1 else q;
    RemovedIndex(s, p, qr);
    assert 0 <= k <= |rest| && SpliceStart(k, |rest|) == k;
    var j := if after then k - 1 else k + 1;
    InsertedIndex(rest, k, x, j);
  }

  /** After `splice(p, 1)`, position `i` holds what was at `i`, or at `i + 1` from `p` on. */
  lemma RemovedIndex<T>(s: seq<T>, p: nat, i: nat)
    requires p < |s| && i < |s| - 1
    ensures RemoveAt(s, p)[i] == if i < p then s[i] else s[i + 1]
  {
  }

  /** After `splice(k, 0, x)`, position `j` holds what was at `j` before `k`, `x` at `k`, and what was at `j - 1` after it. */
  lemma InsertedIndex<T>(s: seq<T>, k: nat, x: T, j: nat)
    requires k <= |s| && j <= |s|
    ensures InsertAt(s, k, x)[j] == if j < k then s[j] else if j == k then x else s[j - 1]
  {
    assert SpliceStart(k, |s|) == k;
  }

  /** Into another window the moved tab likewise lands just before or just after the target card. */
  lemma DropAcrossWindows<T>(s: seq<T>, p: int, q: nat, after: bool, x: T, from: int, to: int)
    requires q < |s| && from != to
    ensures var k := DropIndex(from, p, to, q, after);
            var r := InsertAt(s, k, x);
            0 <= k < |r| && r[k] == x
            && (!after ==> r[k + 1] == s[q])
            && (after ==> r[k - 1] == s[q])
  {
    var k := DropIndex(from, p, to, q, after);
    assert SpliceStart(k, |s|) == k;
  }

  // ---------------------------------------------------------------------
  // The overview's state
  // ---------------------------------------------------------------------

  /** `windows.flatMap(w => w.tabs || [])` */
  function AllTabs(windows: seq<Win>): seq<Tab> {
    if |windows| == 0 then [] else windows[0].tabs + AllTabs(windows[1..])
  }

  /** The ids of the tabs, in order. */
  function Ids(tabs: seq<Tab>): (r: seq<int>)
    ensures |r| == |tabs| && forall i :: 0 <= i < |tabs| ==> r[i] == tabs[i].id
  {
    seq(|tabs|, i requires 0 <= i < |tabs| => tabs[i].id)
  }

  /** Every tab id of every window, with multiplicity. */
  function IdBag(windows: seq<Win>): multiset<int> {
    if |windows| == 0 then multiset{} else multiset(Ids(windows[0].tabs)) + IdBag(windows[1..])
  }

  /** The tabs whose id is not in `ids`, in order. */
  function WithoutIds(tabs: seq<Tab>, ids: set<int>): (r: seq<Tab>)
    ensures forall t :: t in r <==> t in tabs && t.id !in ids
  {
    if |tabs| == 0 then []
    else
      var rest := WithoutIds(tabs[1..], ids);
      assert forall t :: t in tabs <==> t == tabs[0] || t in tabs[1..];
      if tabs[0].id in ids then rest else [tabs[0]] + rest
  }

  /** Each window with the closed tabs taken out; windows left empty stay. */
  function WindowsWithout(windows: seq<Win>, ids: set<int>): (r: seq<Win>)
    ensures |r| == |windows|
    ensures forall i :: 0 <= i < |windows| ==>
              r[i].id == windows[i].id && r[i].kind == windows[i].kind
              && forall t :: t in r[i].tabs <==> t in windows[i].tabs && t.id !in ids
  {
    seq(|windows|, i requires 0 <= i < |windows| => windows[i].(tabs := WithoutIds(windows[i].tabs, ids)))
  }

  /** The tabs numbered by position: `tabs.forEach((t, i) => t.index = i)`. */
  function Renumbered(tabs: seq<Tab>): (r: seq<Tab>)
    ensures |r| == |tabs|
    ensures forall i :: 0 <= i < |tabs| ==> r[i] == tabs[i].(index := i)
  {
    seq(|tabs|, i requires 0 <= i < |tabs| => tabs[i].(index := i))
  }

  /** Renumbering keeps the ids in place. */
  lemma RenumberedIds(tabs: seq<Tab>)
    ensures Ids(Renumbered(tabs)) == Ids(tabs)
  {
  }

  /** `updateLocalTabOrder` on the windows. */
  function MovedWindows(windows: seq<Win>, tabId: int, fromId: int, toId: int, target: int): seq<Win> {
    match FindWindow(windows, fromId)
    case None => windows
    case Some(f) =>
      var k := FindTab(windows[f].tabs, tabId);
      if k < 0 then windows else Relocate(windows, f, k, FindWindow(windows, toId), toId, target)
  }

  /**
   * Tab `k` of window `f` leaves it with the new window id; when the
   * destination window `to` exists the tab is spliced into it and both
   * windows are renumbered, otherwise the tab is dropped.
   */
  function Relocate(windows: seq<Win>, f: nat, k: nat, to: Option<nat>, toId: int, target: int): seq<Win>
    requires f < |windows| && k < |windows[f].tabs| && (to.Some? ==> to.value < |windows|)
  {
    var tab := windows[f].tabs[k].(windowId := toId);
    var rest := RemoveAt(windows[f].tabs, k);
    match to
    case None => windows[f := windows[f].(tabs := rest)]
    case Some(d) =>
      if d == f then windows[f := windows[f].(tabs := Renumbered(InsertAt(rest, target, tab)))]
      else windows[f := windows[f].(tabs := Renumbered(rest))][d := windows[d].(tabs := Renumbered(InsertAt(windows[d].tabs, target, tab)))]
  }

  /** Replacing one window changes the bag of ids by that window's ids. */
  lemma {:induction false} IdBagUpdate(windows: seq<Win>, i: nat, w: Win)
    requires i < |windows|
    ensures IdBag(windows[i := w]) + multiset(Ids(windows[i].tabs)) == IdBag(windows) + multiset(Ids(w.tabs))
  {
    var u := windows[i := w];
    if i > 0 {
      assert u[0] == windows[0];
      assert u[1..] == windows[1..][i - 1 := w];
      assert windows[1..][i - 1] == windows[i];
      IdBagUpdate(windows[1..], i - 1, w);
      var a := multiset(Ids(windows[0].tabs));
      assert IdBag(u) == a + IdBag(u[1..]);
      assert IdBag(windows) == a + IdBag(windows[1..]);
      MultisetShift(a, IdBag(u[1..]), IdBag(windows[1..]), multiset(Ids(windows[i].tabs)), multiset(Ids(w.tabs)));
    } else {
      assert u[1..] == windows[1..];
    }
  }

  /** Adding a common part to both sides of an equation between bags. */
  lemma MultisetShift(a: multiset<int>, b: multiset<int>, c: multiset<int>, d: multiset<int>, e: multiset<int>)
    requires b + d == c + e
    ensures (a + b) + d == (a + c) + e
  {
    forall x ensures ((a + b) + d)[x] == ((a + c) + e)[x] {
      assert (b + d)[x] == (c + e)[x];
    }
  }

  /** The ids after taking out position k. */
  lemma RemoveAtIds(tabs: seq<Tab>, k: nat)
    requires k < |tabs|
    ensures multiset(Ids(RemoveAt(tabs, k))) + multiset{tabs[k].id} == multiset(Ids(tabs))
  {
    var ids := Ids(tabs);
    assert Ids(RemoveAt(tabs, k)) == ids[..k] + ids[k + 1..];
    assert ids == ids[..k] + [ids[k]] + ids[k + 1..];
  }

  /** The ids after inserting a tab. */
  lemma InsertAtIds(tabs: seq<Tab>, start: int, x: Tab)
    ensures multiset(Ids(InsertAt(tabs, start, x))) == multiset(Ids(tabs)) + multiset{x.id}
  {
    var k := SpliceStart(start, |tabs|);
    var ids := Ids(tabs);
    assert Ids(InsertAt(tabs, start, x)) == ids[..k] + [x.id] + ids[k..];
    assert ids == ids[..k] + ids[k..];
  }

  /** Taking tab k out of window f and replacing it by `w` whose ids are the rest plus `extra`. */
  lemma ReplaceIds(windows: seq<Win>, f: nat, k: nat, w: Win, extra: multiset<int>)
    requires f < |windows| && k < |windows[f].tabs|
    requires multiset(Ids(w.tabs)) == multiset(Ids(RemoveAt(windows[f].tabs, k))) + extra
    ensures IdBag(windows[f := w]) + multiset{windows[f].tabs[k].id} == IdBag(windows) + extra
  {
    RemoveAtIds(windows[f].tabs, k);
    IdBagUpdate(windows, f, w);
    var rest := multiset(Ids(RemoveAt(windows[f].tabs, k)));
    var one := multiset{windows[f].tabs[k].id};
    var after := IdBag(windows[f := w]);
    forall x ensures (after + one)[x] == (IdBag(windows) + extra)[x] {
      assert (after + (rest + one))[x] == (IdBag(windows) + (rest + extra))[x];
    }
  }

  /** Moving a tab within its own window keeps the ids. */
  lemma RelocateWithinIds(windows: seq<Win>, f: nat, k: nat, toId: int, target: int)
    requires f < |windows| && k < |windows[f].tabs|
    ensures IdBag(Relocate(windows, f, k, Some(f), toId, target)) == IdBag(windows)
  {
    var tab := windows[f].tabs[k].(windowId := toId);
    var moved := InsertAt(RemoveAt(windows[f].tabs, k), target, tab);
    var r := windows[f := windows[f].(tabs := Renumbered(moved))];
    assert Relocate(windows, f, k, Some(f), toId, target) == r;
    var one := multiset{tab.id};
    RenumberedIds(moved);
    InsertAtIds(RemoveAt(windows[f].tabs, k), target, tab);
    ReplaceIds(windows, f, k, r[f], one);
    forall x ensures IdBag(r)[x] == IdBag(windows)[x] {
      assert (IdBag(r) + one)[x] == (IdBag(windows) + one)[x];
    }
  }

  /** Moving a tab to another window keeps the ids. */
  lemma RelocateAcrossIds(windows: seq<Win>, f: nat, k: nat, d: nat, toId: int, target: int)
    requires f < |windows| && k < |windows[f].tabs| && d < |windows| && d != f
    ensures IdBag(Relocate(windows, f, k, Some(d), toId, target)) == IdBag(windows)
  {
    var tab := windows[f].tabs[k].(windowId := toId);
    var rest := RemoveAt(windows[f].tabs, k);
    var w1 := windows[f := windows[f].(tabs := Renumbered(rest))];
    var moved := InsertAt(windows[d].tabs, target, tab);
    var r := w1[d := windows[d].(tabs := Renumbered(moved))];
    assert Relocate(windows, f, k, Some(d), toId, target) == r;
    RenumberedIds(rest);
    RenumberedIds(moved);
    InsertAtIds(windows[d].tabs, target, tab);
    ReplaceIds(windows, f, k, w1[f], multiset{});
    assert w1[d] == windows[d];
    IdBagUpdate(w1, d, r[d]);
    forall x ensures IdBag(r)[x] == IdBag(windows)[x] {
      assert (IdBag(w1) + multiset{tab.id})[x] == IdBag(windows)[x];
      assert (IdBag(r) + multiset(Ids(windows[d].tabs)))[x] == (IdBag(w1) + multiset(Ids(windows[d].tabs)) + multiset{tab.id})[x];
    }
  }

  /** Relocating keeps every id when the destination exists and loses the moved one otherwise. */
  lemma RelocateIds(windows: seq<Win>, f: nat, k: nat, to: Option<nat>, toId: int, target: int)
    requires f < |windows| && k < |windows[f].tabs| && (to.Some? ==> to.value < |windows|)
    ensures var r := Relocate(windows, f, k, to, toId, target);
            if to.Some? then IdBag(r) == IdBag(windows)
            else IdBag(r) + multiset{windows[f].tabs[k].id} == IdBag(windows)
  {
    match to
    case None =>
      var r := windows[f := windows[f].(tabs := RemoveAt(windows[f].tabs, k))];
      assert Relocate(windows, f, k, to, toId, target) == r;
      ReplaceIds(windows, f, k, r[f], multiset{});
    case Some(d) =>
      if d == f {
        RelocateWithinIds(windows, f, k, toId, target);
      } else {
        RelocateAcrossIds(windows, f, k, d, toId, target);
      }
  }

  /**
   * A local move keeps every tab when the destination window exists, and
   * loses exactly the moved tab when it does not; when the window or the
   * tab is missing nothing changes.
   */
  lemma MoveKeepsTabs(windows: seq<Win>, tabId: int, fromId: int, toId: int, target: int)
    ensures var f := FindWindow(windows, fromId);
            var r := MovedWindows(windows, tabId, fromId, toId, target);
            if f.None? || FindTab(windows[f.value].tabs, tabId) < 0 then r == windows
            else if FindWindow(windows, toId).Some? then IdBag(r) == IdBag(windows)
            else IdBag(r) + multiset{tabId} == IdBag(windows)
  {
    match FindWindow(windows, fromId)
    case None =>
    case Some(f) =>
      var k := FindTab(windows[f].tabs, tabId);
      if k >= 0 {
        RelocateIds(windows, f, k, FindWindow(windows, toId), toId, target);
      }
  }

  /**
   * `r` is `windows` after tab `id` moved from window `f` into window `d`
   * (whose id is `toId`): it sits in `d` at the `splice` position with its
   * new window id, and the windows touched are numbered 0..n-1.
   */
  predicate Placed(windows: seq<Win>, r: seq<Win>, f: nat, d: nat, id: int, toId: int, target: int)
    requires f < |windows| && d < |windows| && |windows[f].tabs| > 0
  {
    var n := |windows[d].tabs| - (if d == f then 1 else 0);
    |r| == |windows| && |r[d].tabs| == n + 1
    && r[d].tabs[SpliceStart(target, n)].id == id
    && r[d].tabs[SpliceStart(target, n)].windowId == toId
    && (forall i :: 0 <= i < |r[d].tabs| ==> r[d].tabs[i].index == i)
    && (forall i :: 0 <= i < |r[f].tabs| ==> r[f].tabs[i].index == i)
  }

  /** With the destination window present, `Relocate` places the tab. */
  lemma RelocatePlaces(windows: seq<Win>, f: nat, k: nat, d: nat, toId: int, target: int)
    requires f < |windows| && k < |windows[f].tabs| && d < |windows|
    ensures Placed(windows, Relocate(windows, f, k, Some(d), toId, target), f, d, windows[f].tabs[k].id, toId, target)
  {
    var tab := windows[f].tabs[k].(windowId := toId);
    var rest := RemoveAt(windows[f].tabs, k);
    var r := Relocate(windows, f, k, Some(d), toId, target);
    if d == f {
      RenumberedInsert(rest, target, tab);
      assert r[d].tabs == Renumbered(InsertAt(rest, target, tab));
    } else {
      RenumberedInsert(windows[d].tabs, target, tab);
      assert r[d].tabs == Renumbered(InsertAt(windows[d].tabs, target, tab));
      assert r[f].tabs == Renumbered(rest);
    }
  }

  /** Splicing a tab in and renumbering puts it at the `splice` position, numbered like the rest. */
  lemma RenumberedInsert(s: seq<Tab>, target: int, tab: Tab)
    ensures var m := Renumbered(InsertAt(s, target, tab));
            |m| == |s| + 1 && m[SpliceStart(target, |s|)] == tab.(index := SpliceStart(target, |s|))
            && forall i :: 0 <= i < |m| ==> m[i].index == i
  {
  }

  /** `moveTab` within or across windows places the tab in its destination window. */
  lemma MovePlacesTab(windows: seq<Win>, tabId: int, fromId: int, toId: int, target: int)
    requires FindWindow(windows, fromId).Some? && FindWindow(windows, toId).Some?
    requires FindTab(windows[FindWindow(windows, fromId).value].tabs, tabId) >= 0
    ensures Placed(windows, MovedWindows(windows, tabId, fromId, toId, target),
                   FindWindow(windows, fromId).value, FindWindow(windows, toId).value, tabId, toId, target)
  {
    var f := FindWindow(windows, fromId).value;
    var d := FindWindow(windows, toId).value;
    var k := FindTab(windows[f].tabs, tabId);
    assert MovedWindows(windows, tabId, fromId, toId, target) == Relocate(windows, f, k, Some(d), toId, target);
    RelocatePlaces(windows, f, k, d, toId, target);
    assert windows[f].tabs[k].id == tabId;
  }

  class Overview {
    var windows: seq<Win>
    var tabs: seq<Tab>
    var screenshots: map<int, string>
    var pendingTabIds: seq<int>

    /** `pendingTabIds` is a `Set`: its ids, in insertion order, are distinct. */
    ghost predicate Valid()
      reads this
    {
      NoDup(pendingTabIds)
    }

    /** The state the constructor sets up before the first load. */
    constructor ()
      ensures Valid()
      ensures windows == [] && tabs == [] && screenshots == map[] && pendingTabIds == []
    {
      windows := [];
      tabs := [];
      screenshots := map[];
      pendingTabIds := [];
    }

    /**
     * `loadTabs`: store the fetched windows and their tabs, then drop from
     * the pending closes every id no longer present.
     */
    method LoadTabs(fetched: seq<Win>)
      requires Valid()
      modifies this`windows, this`tabs, this`pendingTabIds
      ensures Valid()
      ensures windows == fetched && tabs == AllTabs(fetched)
      ensures pendingTabIds == KeepCurrent(old(pendingTabIds), set t | t in AllTabs(fetched) :: t.id)
    {
      windows := fetched;
      tabs := AllTabs(fetched);
      pendingTabIds := PrunePending(pendingTabIds, set t | t in tabs :: t.id);
      KeepCurrentNoDup(old(pendingTabIds), set t | t in tabs :: t.id);
    }

    /** The ids a list holds, as a set. */
    static function IdSet(ids: seq<int>): (r: set<int>)
      ensures forall id :: id in r <==> id in ids
    {
      set id | id in ids
    }

    /** One more id in the list adds it to the set. */
    static lemma IdSetSnoc(ids: seq<int>, i: nat)
      requires i < |ids|
      ensures IdSet(ids[..i + 1]) == IdSet(ids[..i]) + {ids[i]}
    {
      assert ids[..i + 1] == ids[..i] + [ids[i]];
    }

    /**
     * `closeTabs`: an empty list changes nothing. Otherwise the ids become
     * pending, their tabs leave `tabs` and every window, and their
     * screenshots are dropped.
     */
    method CloseTabs(ids: seq<int>)
      requires Valid()
      modifies this`tabs, this`windows, this`screenshots, this`pendingTabIds
      ensures Valid()
      ensures |ids| == 0 ==> tabs == old(tabs) && windows == old(windows)
                             && screenshots == old(screenshots) && pendingTabIds == old(pendingTabIds)
      ensures |ids| > 0 ==>
                var idSet := set id | id in ids;
                pendingTabIds == AddAll(old(pendingTabIds), ids)
                && tabs == WithoutIds(old(tabs), idSet)
                && windows == WindowsWithout(old(windows), idSet)
                && screenshots == old(screenshots) - idSet
    {
      if |ids| == 0 {
        return;
      }
      var i := 0;
      while i < |ids|
        invariant 0 <= i <= |ids|
        invariant pendingTabIds == AddAll(old(pendingTabIds), ids[..i]) && Valid()
        invariant tabs == old(tabs) && windows == old(windows) && screenshots == old(screenshots)
      {
        assert ids[..i + 1][..i] == ids[..i];
        pendingTabIds := SetAdd(pendingTabIds, ids[i]);
        i := i + 1;
      }
      assert ids[..i] == ids;
      var idSet := set id | id in ids;
      tabs := WithoutIds(tabs, idSet);
      windows := WindowsWithout(windows, idSet);
      i := 0;
      while i < |ids|
        invariant 0 <= i <= |ids|
        invariant screenshots == old(screenshots) - IdSet(ids[..i])
        invariant pendingTabIds == AddAll(old(pendingTabIds), ids) && Valid()
        invariant tabs == WithoutIds(old(tabs), idSet) && windows == WindowsWithout(old(windows), idSet)
      {
        IdSetSnoc(ids, i);
        screenshots := screenshots - {ids[i]};
        i := i + 1;
      }
      assert ids[..i] == ids;
    }

    /** `updateLocalTabOrder`: the local half of a drag-and-drop move. */
    method UpdateLocalTabOrder(tabId: int, fromId: int, toId: int, target: int)
      modifies this`windows, this`tabs
      ensures windows == MovedWindows(old(windows), tabId, fromId, toId, target)
      ensures var f := FindWindow(old(windows), fromId);
              if f.None? || FindTab(old(windows)[f.value].tabs, tabId) < 0 then tabs == old(tabs)
              else tabs == AllTabs(windows)
    {
      var from := FindWindow(windows, fromId);
      var to := FindWindow(windows, toId);
      if from.None? {
        return;
      }
      var f := from.value;
      var k := FindTab(windows[f].tabs, tabId);
      if k == -1 {
        return;
      }
      var tab := windows[f].tabs[k].(windowId := toId);
      var fromTabs := RemoveAt(windows[f].tabs, k);
      if to.Some? {
        var d := to.value;
        if d == f {
          fromTabs := RenumberTabs(InsertAt(fromTabs, target, tab));
          windows := windows[f := windows[f].(tabs := fromTabs)];
        } else {
          var toTabs := RenumberTabs(InsertAt(windows[d].tabs, target, tab));
          fromTabs := RenumberTabs(fromTabs);
          windows := windows[f := windows[f].(tabs := fromTabs)][d := windows[d].(tabs := toTabs)];
        }
      } else {
        windows := windows[f := windows[f].(tabs := fromTabs)];
      }
      tabs := AllTabs(windows);
    }
  }

  /** `ids.forEach(id => set.add(id))` */
  function AddAll(s: seq<int>, ids: seq<int>): seq<int> {
    if |ids| == 0 then s else SetAdd(AddAll(s, ids[..|ids| - 1]), ids[|ids| - 1])
  }

  /** After `closeTabs` the pending set holds the old ids and the closed ones, each once. */
  lemma {:induction false} AddAllMembers(s: seq<int>, ids: seq<int>)
    ensures forall y :: y in AddAll(s, ids) <==> y in s || y in ids
    ensures NoDup(s) ==> NoDup(AddAll(s, ids))
  {
    if |ids| > 0 {
      var n := |ids| - 1;
      AddAllMembers(s, ids[..n]);
      assert ids == ids[..n] + [ids[n]];
    }
  }

  /** The ids that are still current, in their insertion order. */
  function KeepCurrent(s: seq<int>, current: set<int>): (r: seq<int>)
    ensures |r| <= |s|
  {
    if |s| == 0 then []
    else
      var n := |s| - 1;
      KeepCurrent(s[..n], current) + (if s[n] in current then [s[n]] else [])
  }

  /** The pruning keeps exactly the pending ids that are still current. */
  lemma {:induction false} KeepCurrentMembers(s: seq<int>, current: set<int>)
    ensures forall y :: y in KeepCurrent(s, current) <==> y in s && y in current
  {
    if |s| > 0 {
      var n := |s| - 1;
      KeepCurrentMembers(s[..n], current);
      assert s == s[..n] + [s[n]];
    }
  }

  /** Keeping the current ids keeps them distinct. */
  lemma {:induction false} KeepCurrentNoDup(s: seq<int>, current: set<int>)
    requires NoDup(s)
    ensures NoDup(KeepCurrent(s, current))
  {
    if |s| > 0 {
      var n := |s| - 1;
      assert NoDup(s[..n]) by {
        forall i, j | 0 <= i < j < n ensures s[..n][i] != s[..n][j] {
          assert s[..n][i] == s[i] && s[..n][j] == s[j];
        }
      }
      KeepCurrentNoDup(s[..n], current);
      KeepCurrentMembers(s[..n], current);
      var k := KeepCurrent(s[..n], current);
      assert s[n] !in s[..n] by {
        forall m | 0 <= m < n ensures s[..n][m] != s[n] {
          assert s[..n][m] == s[m];
        }
      }
      assert s[n] !in k;
      forall j | 0 <= j < |k| ensures k[j] != s[n] {
        assert k[j] in k;
      }
    }
  }

  /** One round of the pruning loop: the id either stays or is deleted from the part not yet visited. */
  lemma PruneStep(pending: seq<int>, current: set<int>, i: nat)
    requires NoDup(pending) && i < |pending|
    ensures var x := pending[i];
            var r := KeepCurrent(pending[..i], current) + pending[i..];
            (if x in current then r else Without(r, x))
            == KeepCurrent(pending[..i + 1], current) + pending[i + 1..]
  {
    var x := pending[i];
    var kept := KeepCurrent(pending[..i], current);
    assert pending[..i + 1][..i] == pending[..i];
    assert pending[..i + 1][i] == x;
    assert KeepCurrent(pending[..i + 1], current) == kept + (if x in current then [x] else []);
    assert pending[i..] == [x] + pending[i + 1..];
    if x !in current {
      PruneDropped(pending, current, i);
    } else {
      AppendAssoc(kept, [x], pending[i + 1..]);
    }
  }

  lemma PruneDropped(pending: seq<int>, current: set<int>, i: nat)
    requires NoDup(pending) && i < |pending| && pending[i] !in current
    ensures var x := pending[i];
            var kept := KeepCurrent(pending[..i], current);
            Without(kept + ([x] + pending[i + 1..]), x) == kept + pending[i + 1..]
  {
    var x := pending[i];
    var kept := KeepCurrent(pending[..i], current);
    var later := pending[i + 1..];
    KeepCurrentMembers(pending[..i], current);
    assert x !in kept;
    assert x !in later by {
      forall j | 0 <= j < |later| ensures later[j] != x {
        assert later[j] == pending[i + 1 + j];
      }
    }
    WithoutAppend(kept, [x] + later, x);
    WithoutAppend([x], later, x);
    WithoutAbsent(kept, x);
    WithoutAbsent(later, x);
    assert Without([x], x) == [];
  }

  /** The pruning loop of `loadTabs`: each pending id that is not current is deleted from the set. */
  method PrunePending(pending: seq<int>, current: set<int>) returns (r: seq<int>)
    requires NoDup(pending)
    ensures r == KeepCurrent(pending, current)
  {
    r := pending;
    var i := 0;
    while i < |pending|
      invariant 0 <= i <= |pending|
      invariant r == KeepCurrent(pending[..i], current) + pending[i..]
    {
      var x := pending[i];
      PruneStep(pending, current, i);
      if x !in current {
        r := Without(r, x);
      }
      i := i + 1;
    }
    assert pending[..i] == pending;
    assert pending[i..] == [];
  }

  /** The renumbering loop of `updateLocalTabOrder`. */
  method RenumberTabs(tabs: seq<Tab>) returns (r: seq<Tab>)
    ensures r == Renumbered(tabs)
  {
    r := tabs;
    var i := 0;
    while i < |r|
      invariant 0 <= i <= |r| == |tabs|
      invariant forall j :: 0 <= j < i ==> r[j] == tabs[j].(index := j)
      invariant forall j :: i <= j < |r| ==> r[j] == tabs[j]
    {
      r := r[i := r[i].(index := i)];
      i := i + 1;
    }
  }
}
