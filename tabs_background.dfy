/**
 * The tab-overview extension's background worker
 * (tab-overview-extension/background.js): a screenshot cache keyed by
 * `"<tabId>-<url>"`, filled by captures, emptied per tab when the tab
 * navigates, finishes loading or closes, and swept when it grows past 100.
 *
 * The cache holds `Key(tabId, url)` pairs; `KeyText` is the string the
 * source stores, and `KeyTextInjective` shows two keys collide as strings
 * only when they are the same pair, so the Map behaves the same over either.
 *
 * The `chrome.*` calls are inputs: the tab that `chrome.tabs.get` returns
 * (`None` when it throws) and the data URL `captureVisibleTab` returns
 * (`None` when it throws).
 */
module TabsBackground {
  import opened Util
  import M = JsMap

  const CacheLimit := 100
  const SweepCount := 50

  datatype TabInfo = TabInfo(id: int, url: string, active: bool)

  datatype Window = Window(id: int, kind: string, tabs: seq<TabInfo>)

  /** A cache key: the tab id and the URL that `${tabId}-${url}` joins. */
  datatype Key = Key(tabId: int, url: string)

  /** `${tabId}-${url}` */
  function KeyText(k: Key): string {
    IntDecimal(k.tabId) + "-" + k.url
  }

  /** The prefix the invalidation listeners look for: `${tabId}-`. */
  function TabPrefix(tabId: int): string {
    IntDecimal(tabId) + "-"
  }

  const RestrictedPrefixes: seq<string> := ["chrome://", "chrome-extension://", "devtools://", "edge://", "about:"]

  /** The URLs `captureAllTabPreviews` never activates or captures. */
  predicate Restricted(url: string) {
    AnyPrefix(url, RestrictedPrefixes)
  }

  /** `url` starts with one of `prefixes`, tried in order. */
  predicate AnyPrefix(url: string, prefixes: seq<string>) {
    |prefixes| > 0 && (StartsWith(url, prefixes[0]) || AnyPrefix(url, prefixes[1..]))
  }

  // ---- the key text ----

  /** `parseInt(key.split('-')[0])` */
  function KeyTabId(key: string): Option<int> {
    ParseIntJs(Split(key, '-')[0])
  }

  /** The tab id `getCachedScreenshots` reads back from a key: none for a negative id. */
  function TabIdOf(k: Key): Option<int> {
    if k.tabId >= 0 then Some(k.tabId) else None
  }

  /** Parsing the text of a key gives back its tab id; a negative id reads as `NaN`. */
  lemma KeyTabIdOfKey(k: Key)
    ensures KeyTabId(KeyText(k)) == TabIdOf(k)
  {
    if k.tabId >= 0 {
      var d := Decimal(k.tabId);
      DecimalRoundTrip(k.tabId);
      assert forall i :: 0 <= i < |d| ==> d[i] != '-';
      assert KeyText(k) == d + ['-'] + k.url;
      SplitCons(d, '-', k.url);
      assert Split(KeyText(k), '-')[0] == d;
      ParseIntDigits(d, []);
      assert d + [] == d;
      assert ParseIntJs(d) == Some(k.tabId);
    } else {
      var rest := Decimal(-k.tabId) + "-" + k.url;
      assert KeyText(k) == [] + ['-'] + rest;
      SplitCons([], '-', rest);
      assert Split(KeyText(k), '-')[0] == [];
      assert ParseIntJs([]) == None;
    }
  }

  /** A decimal numeral followed by '-' is a prefix of another only when the numbers agree. */
  lemma DecimalDashPrefix(a: nat, b: nat, u: string)
    requires StartsWith(Decimal(b) + "-" + u, Decimal(a) + "-")
    ensures a == b
  {
    var da, db := Decimal(a), Decimal(b);
    var t := db + "-" + u;
    DecimalRoundTrip(a);
    DecimalRoundTrip(b);
    assert t[|db|] == '-' && (da + "-")[|da|] == '-';
    assert forall i :: 0 <= i <= |da| ==> t[i] == (da + "-")[i];
    assert |da| == |db|;
    assert da == t[..|da|] == db;
  }

  /** The text of a key starts with `${tabId}-` exactly when the key belongs to that tab. */
  lemma PrefixMatchesOwnTab(k: Key, tabId: int)
    ensures StartsWith(KeyText(k), TabPrefix(tabId)) <==> k.tabId == tabId
  {
    if k.tabId == tabId {
      var t, p := KeyText(k), TabPrefix(tabId);
      assert t == p + k.url;
      assert t[..|p|] == p;
    } else if tabId < 0 && k.tabId < 0 {
      NegativePrefixDiffers(k, tabId);
    } else if tabId < 0 || k.tabId < 0 {
      SignPrefixDiffers(k, tabId);
    } else if StartsWith(KeyText(k), TabPrefix(tabId)) {
      DecimalDashPrefix(tabId, k.tabId, k.url);
    }
  }

  lemma NegativePrefixDiffers(k: Key, tabId: int)
    requires tabId < 0 && k.tabId < 0 && k.tabId != tabId
    ensures !StartsWith(KeyText(k), TabPrefix(tabId))
  {
    var x := Decimal(-k.tabId) + "-" + k.url;
    var y := Decimal(-tabId) + "-";
    assert KeyText(k) == "-" + x;
    assert TabPrefix(tabId) == "-" + y;
    if StartsWith("-" + x, "-" + y) {
      DropCommonHead('-', x, y);
      DecimalDashPrefix(-tabId, -k.tabId, k.url);
    }
  }

  lemma DropCommonHead(c: char, x: string, y: string)
    requires StartsWith([c] + x, [c] + y)
    ensures StartsWith(x, y)
  {
    forall i | 0 <= i < |y|
      ensures x[i] == y[i]
    {
      assert ([c] + x)[i + 1] == ([c] + y)[i + 1];
    }
    assert x[..|y|] == y;
  }

  lemma SignPrefixDiffers(k: Key, tabId: int)
    requires (tabId < 0) != (k.tabId < 0)
    ensures !StartsWith(KeyText(k), TabPrefix(tabId))
  {
    var t, p := KeyText(k), TabPrefix(tabId);
    if tabId < 0 {
      DecimalDigits(k.tabId);
      assert t[0] == Decimal(k.tabId)[0] != '-' == p[0];
    } else {
      DecimalDigits(tabId);
      assert t[0] == '-' != Decimal(tabId)[0] == p[0];
    }
  }

  /** Distinct keys have distinct texts, so the string-keyed Map is the pair-keyed one. */
  lemma KeyTextInjective(a: Key, b: Key)
    ensures KeyText(a) == KeyText(b) <==> a == b
  {
    if KeyText(a) == KeyText(b) {
      assert KeyText(a) == TabPrefix(a.tabId) + a.url;
      assert KeyText(b) == TabPrefix(b.tabId) + b.url;
      PrefixMatchesOwnTab(b, a.tabId);
      assert a.url == KeyText(a)[|TabPrefix(a.tabId)|..] == b.url;
    }
  }

  // ---- specification of the cache operations ----

  /** The `getCachedScreenshots` reply: later entries overwrite earlier ones with the same tab id. */
  function CachedMap(e: M.Entries<Key, string>): (r: map<int, string>)
    ensures forall t :: t in r <==> exists i :: 0 <= i < |e| && TabIdOf(e[i].0) == Some(t)
    ensures forall t :: t in r ==> exists i :: 0 <= i < |e| && TabIdOf(e[i].0) == Some(t) && e[i].1 == r[t]
  {
    if |e| == 0 then map[]
    else
      var prev := CachedMap(e[..|e| - 1]);
      assert forall i :: 0 <= i < |e| - 1 ==> e[..|e| - 1][i] == e[i];
      var last := e[|e| - 1];
      match TabIdOf(last.0)
      case None => prev
      case Some(t) => prev[t := last.1]
  }

  /** Every entry of tab `tabId` dropped, the rest in order. */
  function Dropped(e: M.Entries<Key, string>, tabId: int): M.Entries<Key, string> {
    if |e| == 0 then []
    else Dropped(e[..|e| - 1], tabId) + (if e[|e| - 1].0.tabId == tabId then [] else [e[|e| - 1]])
  }

  /** Exactly the entries of other tabs survive. */
  lemma {:induction false} DroppedMembers(e: M.Entries<Key, string>, tabId: int)
    ensures forall x :: x in Dropped(e, tabId) <==> x in e && x.0.tabId != tabId
  {
    if |e| > 0 {
      DroppedMembers(e[..|e| - 1], tabId);
      assert e == e[..|e| - 1] + [e[|e| - 1]];
    }
  }

  /** The shots `captureAllTabPreviews` takes in one window: each unrestricted tab whose capture succeeded. */
  function WindowShots(tabs: seq<TabInfo>, captures: seq<Option<string>>): seq<(TabInfo, string)>
    requires |captures| == |tabs|
  {
    if |tabs| == 0 then []
    else
      var n := |tabs| - 1;
      WindowShots(tabs[..n], captures[..n])
      + (if !Restricted(tabs[n].url) && captures[n].Some? then [(tabs[n], captures[n].value)] else [])
  }

  /** Whether `captureAllTabPreviews` goes through a window: a normal one with an active tab. */
  predicate PreviewedWindow(w: Window) {
    w.kind == "normal" && exists i :: 0 <= i < |w.tabs| && w.tabs[i].active
  }

  /** One capture result per tab of each window. */
  predicate Matching(windows: seq<Window>, captures: seq<seq<Option<string>>>) {
    |captures| == |windows| && forall w :: 0 <= w < |windows| ==> |captures[w]| == |windows[w].tabs|
  }

  lemma MatchingPrefix(windows: seq<Window>, captures: seq<seq<Option<string>>>, n: nat)
    requires Matching(windows, captures) && n <= |windows|
    ensures Matching(windows[..n], captures[..n])
  {
    forall w | 0 <= w < n ensures |captures[..n][w]| == |windows[..n][w].tabs| {
      assert captures[..n][w] == captures[w] && windows[..n][w] == windows[w];
    }
  }

  /** Every shot of `captureAllTabPreviews`, window by window. */
  function PreviewShots(windows: seq<Window>, captures: seq<seq<Option<string>>>): seq<(TabInfo, string)>
    requires Matching(windows, captures)
  {
    if |windows| == 0 then []
    else
      var n := |windows| - 1;
      MatchingPrefix(windows, captures, n);
      PreviewShots(windows[..n], captures[..n])
      + (if PreviewedWindow(windows[n]) then WindowShots(windows[n].tabs, captures[n]) else [])
  }

  /** The cache entry a shot is stored as. */
  function ShotEntry(x: (TabInfo, string)): (Key, string) {
    (Key(x.0.id, x.0.url), x.1)
  }

  /** The cache entries of the shots, in order. */
  function Keyed(shots: seq<(TabInfo, string)>): seq<(Key, string)> {
    if |shots| == 0 then [] else Keyed(shots[..|shots| - 1]) + [ShotEntry(shots[|shots| - 1])]
  }

  /** The `screenshots` object returned, continued from `m`: later shots of the same tab id win. */
  function ShotMapFrom(m: map<int, string>, shots: seq<(TabInfo, string)>): map<int, string> {
    if |shots| == 0 then m
    else
      var n := |shots| - 1;
      ShotMapFrom(m, shots[..n])[shots[n].0.id := shots[n].1]
  }

  /** `win.tabs.find(t => t.active)` */
  function FirstActive(tabs: seq<TabInfo>): (r: Option<TabInfo>)
    ensures r.Some? <==> exists i :: 0 <= i < |tabs| && tabs[i].active
    ensures r.Some? ==> r.value in tabs && r.value.active
  {
    if |tabs| == 0 then None
    else if tabs[0].active then Some(tabs[0])
    else
      var r := FirstActive(tabs[1..]);
      assert forall i :: 0 < i < |tabs| ==> tabs[i] == tabs[1..][i - 1];
      r
  }

  /** The `screenshots` object of `captureAllTabsInWindow`: each normal window whose capture succeeded, under its first active tab. */
  function ActiveShots(windows: seq<Window>, captures: seq<Option<string>>): map<int, string>
    requires |captures| == |windows|
  {
    if |windows| == 0 then map[]
    else
      var n := |windows| - 1;
      var prev := ActiveShots(windows[..n], captures[..n]);
      var active := FirstActive(windows[n].tabs);
      if windows[n].kind == "normal" && captures[n].Some? && active.Some? then prev[active.value.id := captures[n].value]
      else prev
  }

  class ScreenshotCache {
    /** `screenshotCache`, in insertion order. */
    var entries: M.Entries<Key, string>

    ghost predicate Valid()
      reads this
    {
      M.Distinct(entries)
    }

    constructor ()
      ensures entries == [] && Valid()
    {
      entries := [];
    }

    /**
     * `captureTabScreenshot`: a cached shot for the tab's current URL is
     * returned without capturing; otherwise only the active tab is captured
     * and cached; an inactive tab, a missing tab or a failed capture yield null.
     */
    method CaptureTab(tab: Option<TabInfo>, shot: Option<string>) returns (r: Option<string>)
      requires Valid()
      modifies this
      ensures Valid()
      ensures tab.None? ==> r.None? && entries == old(entries)
      ensures tab.Some? && M.Has(old(entries), Key(tab.value.id, tab.value.url)) ==>
                r == M.Get(old(entries), Key(tab.value.id, tab.value.url)) && entries == old(entries)
      ensures tab.Some? && !M.Has(old(entries), Key(tab.value.id, tab.value.url)) ==>
                if tab.value.active && shot.Some?
                then r == shot && entries == old(entries) + [(Key(tab.value.id, tab.value.url), shot.value)]
                else r.None? && entries == old(entries)
    {
      if tab.None? {
        return None;
      }
      var key := Key(tab.value.id, tab.value.url);
      var hit := M.Get(entries, key);
      if hit.Some? {
        return hit;
      }
      if tab.value.active {
        if shot.None? {
          return None;
        }
        M.PutKeepsDistinct(entries, key, shot.value);
        M.PutNew(entries, key, shot.value);
        entries := M.Put(entries, key, shot.value);
        return shot;
      }
      return None;
    }

    /**
     * The `onRemoved` listener, and `onUpdated` when it fires: every key
     * whose text starts with `"<tabId>-"` is deleted while iterating over the keys.
     */
    method InvalidateTab(tabId: int)
      requires Valid()
      modifies this
      ensures Valid()
      ensures entries == Dropped(old(entries), tabId)
    {
      var prefix := TabPrefix(tabId);
      var keys := M.KeysOf(entries);
      ghost var start := entries;
      var i := 0;
      while i < |keys|
        invariant 0 <= i <= |keys| == |start|
        invariant forall m :: 0 <= m < |keys| ==> keys[m] == start[m].0
        invariant entries == Dropped(start[..i], tabId) + start[i..]
      {
        PrefixMatchesOwnTab(keys[i], tabId);
        if StartsWith(KeyText(keys[i]), prefix) {
          DropRemoves(start, i, tabId);
          entries := M.Remove(entries, keys[i]);
        } else {
          DropKeeps(start, i, tabId);
        }
        i := i + 1;
      }
      assert start[..i] == start;
      DroppedKeepsDistinct(start, tabId);
    }

    /** `chrome.tabs.onUpdated`: only a URL change or a completed load invalidates. */
    method OnUpdated(tabId: int, urlChanged: bool, status: string)
      requires Valid()
      modifies this
      ensures Valid()
      ensures entries == if urlChanged || status == "complete" then Dropped(old(entries), tabId) else old(entries)
    {
      if urlChanged || status == "complete" {
        InvalidateTab(tabId);
      }
    }

    /** The minute sweep: past 100 entries, the 50 oldest keys are deleted one by one. */
    method Sweep()
      requires Valid()
      modifies this
      ensures Valid()
      ensures entries == if |old(entries)| > CacheLimit then old(entries)[SweepCount..] else old(entries)
    {
      if |entries| <= CacheLimit {
        return;
      }
      var doomed := M.KeysOf(entries)[..SweepCount];
      ghost var start := entries;
      var j := 0;
      while j < |doomed|
        invariant 0 <= j <= SweepCount && |doomed| == SweepCount
        invariant forall m :: 0 <= m < SweepCount ==> doomed[m] == start[m].0
        invariant entries == start[j..]
      {
        M.DistinctSlice(start, j, |start|);
        M.RemoveFirst(entries);
        entries := M.Remove(entries, doomed[j]);
        assert start[j..][1..] == start[j + 1..];
        j := j + 1;
      }
      M.DistinctSlice(start, j, |start|);
    }

    /** The `getCachedScreenshots` handler: a loop over the entries filling `cached[tabId]`. */
    method GetCachedScreenshots() returns (cached: map<int, string>)
      ensures cached == CachedMap(entries)
    {
      cached := map[];
      var i := 0;
      while i < |entries|
        invariant 0 <= i <= |entries|
        invariant cached == CachedMap(entries[..i])
      {
        assert entries[..i + 1][..i] == entries[..i];
        var tabId := KeyTabId(KeyText(entries[i].0));
        KeyTabIdOfKey(entries[i].0);
        if tabId.Some? {
          cached := cached[tabId.value := entries[i].1];
        }
        i := i + 1;
      }
      assert entries[..i] == entries;
    }

    /** The inner loop of `captureAllTabPreviews` for one window. */
    method CaptureWindow(tabs: seq<TabInfo>, captures: seq<Option<string>>, shots: map<int, string>)
      returns (out: map<int, string>)
      requires |captures| == |tabs| && Valid()
      modifies this
      ensures Valid()
      ensures entries == M.PutAll(old(entries), Keyed(WindowShots(tabs, captures)))
      ensures out == ShotMapFrom(shots, WindowShots(tabs, captures))
    {
      entries, out := CaptureLoop(entries, tabs, captures, shots);
    }

    /**
     * `captureAllTabPreviews`: every unrestricted tab of every normal window
     * with an active tab, whose capture succeeds, is stored under its key and
     * returned by id.
     */
    method CaptureAllTabPreviews(windows: seq<Window>, captures: seq<seq<Option<string>>>)
      returns (shots: map<int, string>)
      requires Matching(windows, captures)
      requires Valid()
      modifies this
      ensures Valid()
      ensures entries == M.PutAll(old(entries), Keyed(PreviewShots(windows, captures)))
      ensures shots == ShotMapFrom(map[], PreviewShots(windows, captures))
    {
      shots := map[];
      ghost var start := entries;
      var w := 0;
      MatchingPrefix(windows, captures, 0);
      while w < |windows|
        invariant 0 <= w <= |windows| && Valid()
        invariant Matching(windows[..w], captures[..w])
        invariant entries == M.PutAll(start, Keyed(PreviewShots(windows[..w], captures[..w])))
        invariant shots == ShotMapFrom(map[], PreviewShots(windows[..w], captures[..w]))
      {
        PreviewStep(start, windows, captures, w);
        var win := windows[w];
        var hasActive := exists i :: 0 <= i < |win.tabs| && win.tabs[i].active;
        if win.kind == "normal" && hasActive {
          shots := CaptureWindow(win.tabs, captures[w], shots);
        }
        w := w + 1;
      }
      assert windows[..w] == windows && captures[..w] == captures;
    }
  }

  /**
   * `captureAllTabsInWindow`: one capture per window; a normal window whose
   * capture succeeded gives its shot to its first active tab.
   */
  method CaptureAllTabsInWindow(windows: seq<Window>, captures: seq<Option<string>>) returns (shots: map<int, string>)
    requires |captures| == |windows|
    ensures shots == ActiveShots(windows, captures)
  {
    shots := map[];
    var w := 0;
    while w < |windows|
      invariant 0 <= w <= |windows|
      invariant shots == ActiveShots(windows[..w], captures[..w])
    {
      assert windows[..w + 1][..w] == windows[..w] && captures[..w + 1][..w] == captures[..w];
      var win := windows[w];
      if win.kind == "normal" && captures[w].Some? {
        var active := FirstActive(win.tabs);
        if active.Some? {
          shots := shots[active.value.id := captures[w].value];
        }
      }
      w := w + 1;
    }
    assert windows[..w] == windows && captures[..w] == captures;
  }

  // ---- properties ----

  /** Invalidation removes exactly the entries of that tab and keeps the others. */
  lemma InvalidateRemovesExactlyTab(e: M.Entries<Key, string>, tabId: int)
    ensures forall x :: x in Dropped(e, tabId) <==> x in e && x.0.tabId != tabId
    ensures forall u :: !M.Has(Dropped(e, tabId), Key(tabId, u))
  {
    DroppedMembers(e, tabId);
    var d := Dropped(e, tabId);
    forall i | 0 <= i < |d| ensures d[i].0.tabId != tabId {
      assert d[i] in d;
    }
  }

  lemma {:induction false} WindowShotsAllowed(tabs: seq<TabInfo>, captures: seq<Option<string>>)
    requires |captures| == |tabs|
    ensures forall x :: x in WindowShots(tabs, captures) ==> x.0 in tabs && !Restricted(x.0.url)
  {
    if |tabs| > 0 {
      var n := |tabs| - 1;
      WindowShotsAllowed(tabs[..n], captures[..n]);
      assert forall t :: t in tabs[..n] ==> t in tabs;
    }
  }

  /** No shot of the preview pass comes from a restricted URL or from a window it skips. */
  lemma {:induction false} PreviewShotsAllowed(windows: seq<Window>, captures: seq<seq<Option<string>>>)
    requires Matching(windows, captures)
    ensures forall x :: x in PreviewShots(windows, captures) ==>
              !Restricted(x.0.url) && exists w :: 0 <= w < |windows| && PreviewedWindow(windows[w]) && x.0 in windows[w].tabs
  {
    if |windows| > 0 {
      var n := |windows| - 1;
      MatchingPrefix(windows, captures, n);
      PreviewShotsAllowed(windows[..n], captures[..n]);
      assert forall w :: 0 <= w < n ==> windows[..n][w] == windows[w];
      if PreviewedWindow(windows[n]) {
        WindowShotsAllowed(windows[n].tabs, captures[n]);
      }
    }
  }

  /** The cache entries of a run of shots are those shots under their keys. */
  lemma {:induction false} KeyedIndex(shots: seq<(TabInfo, string)>)
    ensures |Keyed(shots)| == |shots|
    ensures forall i :: 0 <= i < |shots| ==> Keyed(shots)[i] == ShotEntry(shots[i])
  {
    if |shots| > 0 {
      KeyedIndex(shots[..|shots| - 1]);
    }
  }

  /** The preview pass never touches the cache entry of a restricted URL. */
  lemma PreviewSkipsRestricted(e: M.Entries<Key, string>, windows: seq<Window>, captures: seq<seq<Option<string>>>, k: Key)
    requires Matching(windows, captures) && Restricted(k.url)
    ensures M.Get(M.PutAll(e, Keyed(PreviewShots(windows, captures))), k) == M.Get(e, k)
  {
    var shots := PreviewShots(windows, captures);
    PreviewShotsAllowed(windows, captures);
    KeyedIndex(shots);
    forall i | 0 <= i < |Keyed(shots)| ensures Keyed(shots)[i].0 != k {
      assert shots[i] in shots;
    }
    M.PutAllUntouched(e, Keyed(shots), k);
  }

  /** `getCachedScreenshots` reports a tab exactly when some cached key carries its non-negative id. */
  lemma CachedMapTabs(e: M.Entries<Key, string>, t: nat)
    ensures t in CachedMap(e) <==> exists i :: 0 <= i < |e| && e[i].0.tabId == t
  {
    if exists i :: 0 <= i < |e| && e[i].0.tabId == t {
      var i :| 0 <= i < |e| && e[i].0.tabId == t;
      assert TabIdOf(e[i].0) == Some(t);
    }
  }

  /** `captureAllTabsInWindow` credits only active tabs of normal windows. */
  lemma {:induction false} ActiveShotsFromActiveTabs(windows: seq<Window>, captures: seq<Option<string>>)
    requires |captures| == |windows|
    ensures forall id :: id in ActiveShots(windows, captures) ==>
              exists w :: 0 <= w < |windows| && windows[w].kind == "normal" && exists t :: t in windows[w].tabs && t.active && t.id == id
  {
    if |windows| > 0 {
      var n := |windows| - 1;
      ActiveShotsFromActiveTabs(windows[..n], captures[..n]);
      assert forall w :: 0 <= w < n ==> windows[..n][w] == windows[w];
    }
  }

  // ---- proof helpers ----

  lemma WindowShotsSnoc(tabs: seq<TabInfo>, captures: seq<Option<string>>, i: nat)
    requires |captures| == |tabs| && i < |tabs|
    ensures WindowShots(tabs[..i + 1], captures[..i + 1])
            == WindowShots(tabs[..i], captures[..i])
               + (if !Restricted(tabs[i].url) && captures[i].Some? then [(tabs[i], captures[i].value)] else [])
  {
    assert tabs[..i + 1][..i] == tabs[..i] && captures[..i + 1][..i] == captures[..i];
  }

  /** The loop of `captureAllTabPreviews` over one window's tabs, on the cache entries and the returned map. */
  method CaptureLoop(start: M.Entries<Key, string>, tabs: seq<TabInfo>, captures: seq<Option<string>>,
                     shots: map<int, string>)
    returns (entries: M.Entries<Key, string>, out: map<int, string>)
    requires |captures| == |tabs| && M.Distinct(start)
    ensures M.Distinct(entries)
    ensures entries == M.PutAll(start, Keyed(WindowShots(tabs, captures)))
    ensures out == ShotMapFrom(shots, WindowShots(tabs, captures))
  {
    entries, out := start, shots;
    var i := 0;
    while i < |tabs|
      invariant 0 <= i <= |tabs| && M.Distinct(entries)
      invariant entries == M.PutAll(start, Keyed(WindowShots(tabs[..i], captures[..i])))
      invariant out == ShotMapFrom(shots, WindowShots(tabs[..i], captures[..i]))
    {
      var tab := tabs[i];
      if !Restricted(tab.url) && captures[i].Some? {
        WindowStepTaken(start, shots, tabs, captures, i);
        var dataUrl := captures[i].value;
        out := out[tab.id := dataUrl];
        var key := Key(tab.id, tab.url);
        M.PutKeepsDistinct(entries, key, dataUrl);
        entries := M.Put(entries, key, dataUrl);
      } else {
        WindowStepSkipped(tabs, captures, i);
      }
      i := i + 1;
    }
    assert tabs[..i] == tabs && captures[..i] == captures;
  }

  /** One tab of the window loop: a restricted or uncaptured tab adds no shot. */
  lemma WindowStepSkipped(tabs: seq<TabInfo>, captures: seq<Option<string>>, i: nat)
    requires |captures| == |tabs| && i < |tabs|
    requires Restricted(tabs[i].url) || captures[i].None?
    ensures WindowShots(tabs[..i + 1], captures[..i + 1]) == WindowShots(tabs[..i], captures[..i])
  {
    WindowShotsSnoc(tabs, captures, i);
    var before := WindowShots(tabs[..i], captures[..i]);
    assert before + [] == before;
  }

  /** One tab of the window loop: a captured, unrestricted tab is one more `set` and one more id. */
  lemma WindowStepTaken(start: M.Entries<Key, string>, shots: map<int, string>, tabs: seq<TabInfo>,
                        captures: seq<Option<string>>, i: nat)
    requires |captures| == |tabs| && i < |tabs|
    requires !Restricted(tabs[i].url) && captures[i].Some?
    ensures var before := WindowShots(tabs[..i], captures[..i]);
            var after := WindowShots(tabs[..i + 1], captures[..i + 1]);
            M.PutAll(start, Keyed(after)) == M.Put(M.PutAll(start, Keyed(before)), Key(tabs[i].id, tabs[i].url), captures[i].value)
            && ShotMapFrom(shots, after) == ShotMapFrom(shots, before)[tabs[i].id := captures[i].value]
  {
    WindowShotsSnoc(tabs, captures, i);
    var before := WindowShots(tabs[..i], captures[..i]);
    var x := (tabs[i], captures[i].value);
    var after := before + [x];
    assert after[..|before|] == before;
    assert Keyed(after) == Keyed(before) + [ShotEntry(x)];
    M.PutAllSnoc(start, Keyed(before), ShotEntry(x));
  }

  /** One window of the preview loop: a previewed window is its window pass, any other changes nothing. */
  lemma PreviewStep(start: M.Entries<Key, string>, windows: seq<Window>, captures: seq<seq<Option<string>>>, w: nat)
    requires Matching(windows, captures) && w < |windows|
    ensures Matching(windows[..w + 1], captures[..w + 1])
    ensures var before := PreviewShots(windows[..w], captures[..w]);
            var after := PreviewShots(windows[..w + 1], captures[..w + 1]);
            var taken := WindowShots(windows[w].tabs, captures[w]);
            if PreviewedWindow(windows[w])
            then M.PutAll(start, Keyed(after)) == M.PutAll(M.PutAll(start, Keyed(before)), Keyed(taken))
                 && ShotMapFrom(map[], after) == ShotMapFrom(ShotMapFrom(map[], before), taken)
            else after == before
  {
    PreviewShotsSnoc(windows, captures, w);
    MatchingPrefix(windows, captures, w + 1);
    var before := PreviewShots(windows[..w], captures[..w]);
    var taken := WindowShots(windows[w].tabs, captures[w]);
    if PreviewedWindow(windows[w]) {
      KeyedAppend(before, taken);
      M.PutAllAppend(start, Keyed(before), Keyed(taken));
      ShotMapAppend(map[], before, taken);
    } else {
      assert before + [] == before;
    }
  }

  lemma PreviewShotsSnoc(windows: seq<Window>, captures: seq<seq<Option<string>>>, w: nat)
    requires Matching(windows, captures)
    requires w < |windows|
    ensures PreviewShots(windows[..w + 1], captures[..w + 1])
            == PreviewShots(windows[..w], captures[..w])
               + (if PreviewedWindow(windows[w]) then WindowShots(windows[w].tabs, captures[w]) else [])
  {
    assert windows[..w + 1][..w] == windows[..w] && captures[..w + 1][..w] == captures[..w];
    MatchingPrefix(windows, captures, w + 1);
  }

  lemma {:induction false} KeyedAppend(a: seq<(TabInfo, string)>, b: seq<(TabInfo, string)>)
    ensures Keyed(a + b) == Keyed(a) + Keyed(b)
  {
    if |b| == 0 {
      assert a + b == a;
    } else {
      var n := |b| - 1;
      assert (a + b)[..|a| + n] == a + b[..n];
      KeyedAppend(a, b[..n]);
    }
  }

  lemma {:induction false} ShotMapAppend(m: map<int, string>, a: seq<(TabInfo, string)>, b: seq<(TabInfo, string)>)
    ensures ShotMapFrom(m, a + b) == ShotMapFrom(ShotMapFrom(m, a), b)
  {
    if |b| > 0 {
      var n := |b| - 1;
      assert (a + b)[..|a| + n] == a + b[..n];
      ShotMapAppend(m, a, b[..n]);
    } else {
      assert a + b == a;
    }
  }

  /** Passing over entry `i` of another tab leaves the entries as they are. */
  lemma DropKeeps(start: M.Entries<Key, string>, i: nat, tabId: int)
    requires i < |start| && start[i].0.tabId != tabId
    ensures Dropped(start[..i + 1], tabId) + start[i + 1..] == Dropped(start[..i], tabId) + start[i..]
  {
    assert start[..i + 1][..i] == start[..i];
    assert start[i..] == [start[i]] + start[i + 1..];
  }

  /** Dropping entries never introduces a duplicate key. */
  lemma {:induction false} DroppedKeepsDistinct(e: M.Entries<Key, string>, tabId: int)
    requires M.Distinct(e)
    ensures M.Distinct(Dropped(e, tabId))
  {
    if |e| > 0 {
      var n := |e| - 1;
      M.DistinctSlice(e, 0, n);
      assert e[0..n] == e[..n];
      DroppedKeepsDistinct(e[..n], tabId);
      var d := Dropped(e[..n], tabId);
      DroppedMembers(e[..n], tabId);
      if e[n].0.tabId != tabId {
        forall j | 0 <= j < |d| ensures d[j].0 != e[n].0 {
          assert d[j] in e[..n];
          var m :| 0 <= m < n && e[..n][m] == d[j];
          assert e[m] == d[j];
        }
        assert forall j :: 0 <= j < |d| ==> (d + [e[n]])[j] == d[j];
      }
    }
  }

  /** Deleting entry `i` of the tab extends the dropped part by one. */
  lemma DropRemoves(start: M.Entries<Key, string>, i: nat, tabId: int)
    requires M.Distinct(start) && i < |start| && start[i].0.tabId == tabId
    ensures M.Remove(Dropped(start[..i], tabId) + start[i..], start[i].0) == Dropped(start[..i + 1], tabId) + start[i + 1..]
  {
    var k := start[i].0;
    var d := Dropped(start[..i], tabId);
    DroppedMembers(start[..i], tabId);
    assert start[..i + 1] == start[..i] + [start[i]];
    assert Dropped(start[..i + 1], tabId) == d;
    assert start[i..] == [start[i]] + start[i + 1..];
    M.RemoveAppend(d, start[i..], k);
    M.RemoveAppend([start[i]], start[i + 1..], k);
    assert !M.Has(d, k) by {
      forall j | 0 <= j < |d| ensures d[j].0 != k {
        assert d[j] in d;
      }
    }
    M.NotInSlice(start, k, i + 1, |start|);
    M.RemoveAbsent(d, k);
    M.RemoveAbsent(start[i + 1..], k);
    assert M.Remove([start[i]], k) == [];
  }
}
