/**
 * The local reader of browser profile data (chromium_sync/local.py):
 * Chromium timestamps, profile resolution, the bookmark-tree walk, history
 * rows, and the attachment of session tabs to devices.
 *
 * The file system enters as inputs: which paths exist, the saved profile's
 * file text, the parsed Bookmarks JSON, the rows the History query returns,
 * and the LevelDB records with the URLs already scraped out of them.
 */
module SyncLocal {
  import opened Util

  /** Microseconds from 1601-01-01 (the Chromium epoch) to 1970-01-01. */
  const ChromiumEpochOffset: int := 11644473600000000
  const MicrosPerDay: int := 86400000000

  /**
   * `chromium_time_to_datetime`, yielding microseconds since the Unix epoch:
   * zero and pre-1970 values give None.
   */
  function ChromiumTimeToUnix(t: int): (r: Option<int>)
    ensures r.None? <==> t == 0 || t < ChromiumEpochOffset
    ensures r.Some? ==> r.value >= 0 && r.value + ChromiumEpochOffset == t
  {
    if t == 0 then None
    else
      var unix := t - ChromiumEpochOffset;
      if unix < 0 then None else Some(unix)
  }

  // ---- profile resolution ----

  // the candidate profile directories of `get_browser_paths`, after the home directory
  const BraveLinux := "/.config/BraveSoftware/Brave-Browser/Default"
  const BraveMac := "/Library/Application Support/BraveSoftware/Brave-Browser/Default"
  const BraveWindows := "/AppData/Local/BraveSoftware/Brave-Browser/User Data/Default"
  const ChromeLinux := "/.config/google-chrome/Default"
  const ChromeMac := "/Library/Application Support/Google/Chrome/Default"
  const ChromeWindows := "/AppData/Local/Google/Chrome/User Data/Default"
  const ChromiumLinux := "/.config/chromium/Default"
  const ChromiumMac := "/Library/Application Support/Chromium/Default"
  const ChromiumWindows := "/AppData/Local/Chromium/User Data/Default"

  /** `get_browser_paths`, relative to the home directory, in dictionary order. */
  function BrowserPaths(home: string): (r: seq<(string, seq<string>)>)
    ensures |r| == 3 && r[0].0 == "brave" && r[1].0 == "chrome" && r[2].0 == "chromium"
  {
    [("brave", [home + BraveLinux, home + BraveMac, home + BraveWindows]),
     ("chrome", [home + ChromeLinux, home + ChromeMac, home + ChromeWindows]),
     ("chromium", [home + ChromiumLinux, home + ChromiumMac, home + ChromiumWindows])]
  }

  /** The first candidate that exists, if any. */
  function FirstExisting(paths: seq<string>, exists_: string -> bool): (r: Option<string>)
    ensures r.Some? ==> exists k :: 0 <= k < |paths| && paths[k] == r.value && exists_(paths[k])
                                   && forall j :: 0 <= j < k ==> !exists_(paths[j])
    ensures r.None? <==> forall k :: 0 <= k < |paths| ==> !exists_(paths[k])
  {
    if |paths| == 0 then None
    else if exists_(paths[0]) then Some(paths[0])
    else
      var r := FirstExisting(paths[1..], exists_);
      assert forall j :: 1 <= j < |paths| ==> paths[j] == paths[1..][j - 1];
      r
  }

  /** `find_all_browser_profiles`: per browser, in order, its first existing candidate. */
  function Profiles(candidates: seq<(string, seq<string>)>, exists_: string -> bool): (r: seq<(string, string)>)
    ensures |r| <= |candidates|
  {
    if |candidates| == 0 then []
    else
      var rest := Profiles(candidates[..|candidates| - 1], exists_);
      var last := candidates[|candidates| - 1];
      match FirstExisting(last.1, exists_)
      case None => rest
      case Some(p) => rest + [(last.0, p)]
  }

  /** A browser is listed iff one of its candidates exists, and then with its first existing one. */
  lemma {:induction false} ProfilesListed(candidates: seq<(string, seq<string>)>, exists_: string -> bool)
    ensures forall k :: 0 <= k < |candidates| && FirstExisting(candidates[k].1, exists_).Some? ==>
              (candidates[k].0, FirstExisting(candidates[k].1, exists_).value) in Profiles(candidates, exists_)
    ensures forall b, p :: (b, p) in Profiles(candidates, exists_) ==>
              exists i :: 0 <= i < |candidates| && candidates[i].0 == b && FirstExisting(candidates[i].1, exists_) == Some(p)
    decreases |candidates|
  {
    if |candidates| > 0 {
      var n := |candidates| - 1;
      var init := candidates[..n];
      ProfilesListed(init, exists_);
      forall b, p | (b, p) in Profiles(candidates, exists_)
        ensures exists i :: 0 <= i < |candidates| && candidates[i].0 == b && FirstExisting(candidates[i].1, exists_) == Some(p)
      {
        if (b, p) in Profiles(init, exists_) {
          var i :| 0 <= i < |init| && init[i].0 == b && FirstExisting(init[i].1, exists_) == Some(p);
          assert candidates[i] == init[i];
        } else {
          assert candidates[n].0 == b && FirstExisting(candidates[n].1, exists_) == Some(p);
        }
      }
      forall k | 0 <= k < |candidates| && FirstExisting(candidates[k].1, exists_).Some?
        ensures (candidates[k].0, FirstExisting(candidates[k].1, exists_).value) in Profiles(candidates, exists_)
      {
        if k < n {
          assert candidates[k] == init[k];
        }
      }
    }
  }

  /** The loops of `find_all_browser_profiles`: stop at each browser's first existing path. */
  method FindAllBrowserProfiles(home: string, exists_: string -> bool) returns (found: seq<(string, string)>)
    ensures found == Profiles(BrowserPaths(home), exists_)
  {
    var candidates := BrowserPaths(home);
    found := [];
    var i := 0;
    while i < |candidates|
      invariant 0 <= i <= |candidates|
      invariant found == Profiles(candidates[..i], exists_)
    {
      assert candidates[..i + 1][..i] == candidates[..i];
      var first := FirstExistingPath(candidates[i].1, exists_);
      if first.Some? {
        found := found + [(candidates[i].0, first.value)];
      }
      i := i + 1;
    }
    assert candidates[..|candidates|] == candidates;
  }

  /** The inner loop of `find_all_browser_profiles`: stop at the first path that exists. */
  method FirstExistingPath(paths: seq<string>, exists_: string -> bool) returns (first: Option<string>)
    ensures first == FirstExisting(paths, exists_)
  {
    var k := 0;
    while k < |paths|
      invariant 0 <= k <= |paths|
      invariant FirstExisting(paths, exists_) == FirstExisting(paths[k..], exists_)
    {
      if exists_(paths[k]) {
        return Some(paths[k]);
      }
      assert paths[k..][1..] == paths[k + 1..];
      k := k + 1;
    }
    first := None;
  }

  /** `Path(text)`: the empty string names the current directory. */
  function PathOf(text: string): string {
    if text == "" then "." else text
  }

  /** `load_saved_profile`: the stripped text of the config file, if the file was readable and the path exists. */
  function LoadSavedProfile(configText: Option<string>, exists_: string -> bool): (r: Option<string>)
    ensures r.Some? <==> configText.Some? && exists_(PathOf(Strip(configText.value)))
    ensures r.Some? ==> r.value == PathOf(Strip(configText.value))
  {
    if configText.None? then None
    else
      var path := PathOf(Strip(configText.value));
      if exists_(path) then Some(path) else None
  }

  datatype Resolution =
    | Resolved(path: string)
    | NoProfile(message: string)                          // ValueError
    | MultipleProfilesFound(profiles: seq<(string, string)>)

  const NoBrowserMessage := "No browser profile found. Set CHROMIUM_PROFILE_PATH to your browser's profile directory."

  const MissingEnvProfile := "CHROMIUM_PROFILE_PATH does not exist: "

  /**
   * `resolve_browser_profile`: a set environment path wins (or fails if it
   * does not exist), then the saved profile, then a single detected browser.
   */
  function ResolveBrowserProfile(envPath: Option<string>, configText: Option<string>, home: string,
                                 exists_: string -> bool): (r: Resolution)
    ensures envPath.Some? && envPath.value != "" ==>
              r == (if exists_(envPath.value) then Resolved(envPath.value)
                    else NoProfile(MissingEnvProfile + envPath.value))
    ensures (envPath.None? || envPath.value == "") && LoadSavedProfile(configText, exists_).Some? ==>
              r == Resolved(LoadSavedProfile(configText, exists_).value)
    ensures (envPath.None? || envPath.value == "") && LoadSavedProfile(configText, exists_).None? ==>
              var found := Profiles(BrowserPaths(home), exists_);
              (|found| == 0 ==> r == NoProfile(NoBrowserMessage))
              && (|found| == 1 ==> r == Resolved(found[0].1))
              && (|found| > 1 ==> r == MultipleProfilesFound(found))
    ensures r.MultipleProfilesFound? ==> |r.profiles| > 1
  {
    if envPath.Some? && envPath.value != "" then
      if exists_(envPath.value) then Resolved(envPath.value)
      else NoProfile(MissingEnvProfile + envPath.value)
    else
      match LoadSavedProfile(configText, exists_)
      case Some(saved) => Resolved(saved)
      case None =>
        var found := Profiles(BrowserPaths(home), exists_);
        if |found| == 0 then NoProfile(NoBrowserMessage)
        else if |found| == 1 then Resolved(found[0].1)
        else MultipleProfilesFound(found)
  }

  // ---- bookmarks ----

  /**
   * A node of the Bookmarks JSON file; an absent key is None. `dateAdded`
   * is the integer value of `date_added`, None when the key is absent or its
   * text is empty.
   */
  datatype Node = Node(id: Option<string>, guid: Option<string>, nodeType: Option<string>,
                       url: Option<string>, name: Option<string>, dateAdded: Option<int>,
                       children: seq<Node>)

  datatype LocalBookmark = LocalBookmark(id: string, url: string, title: string, parentId: Option<string>,
                                         dateAddedUs: Option<int>, isFolder: bool)

  function Get(v: Option<string>, default: string): string {
    if v.Some? then v.value else default
  }

  /** `node.get("id", node.get("guid", ""))`. */
  function NodeId(n: Node): string {
    if n.id.Some? then n.id.value else Get(n.guid, "")
  }

  function BookmarkOf(n: Node, parentId: Option<string>): (b: LocalBookmark)
    ensures b.isFolder <==> n.nodeType == Some("folder")
    ensures b.parentId == parentId && b.id == NodeId(n)
  {
    LocalBookmark(NodeId(n), Get(n.url, ""), Get(n.name, ""), parentId,
                  // an absent date_added reads as "0", which converts to None
                  if n.dateAdded.Some? then ChromiumTimeToUnix(n.dateAdded.value) else None,
                  Get(n.nodeType, "") == "folder")
  }

  predicate Selected(folderId: Option<string>, parentId: Option<string>) {
    folderId.None? || parentId == folderId
  }

  /**
   * `process_node`: the node (if its parent is the filter folder), then its
   * subtrees, in preorder. A recorded node comes first, linked to its
   * parent; with a folder filter every recorded bookmark is a child of it.
   */
  function Walk(n: Node, parentId: Option<string>, folderId: Option<string>): (r: seq<LocalBookmark>)
    ensures Selected(folderId, parentId) ==> |r| > 0 && r[0] == BookmarkOf(n, parentId)
    ensures folderId.Some? ==> forall b :: b in r ==> b.parentId == folderId
    decreases n
  {
    (if Selected(folderId, parentId) then [BookmarkOf(n, parentId)] else [])
    + WalkChildren(n.children, NodeId(n), folderId)
  }

  function WalkChildren(cs: seq<Node>, parentId: string, folderId: Option<string>): (r: seq<LocalBookmark>)
    ensures folderId.Some? ==> forall b :: b in r ==> b.parentId == folderId
    decreases cs
  {
    if |cs| == 0 then []
    else WalkChildren(cs[..|cs| - 1], parentId, folderId) + Walk(cs[|cs| - 1], Some(parentId), folderId)
  }

  function Filter(bs: seq<LocalBookmark>, folder: string): (r: seq<LocalBookmark>)
    ensures forall b :: b in r <==> b in bs && b.parentId == Some(folder)
  {
    if |bs| == 0 then []
    else
      var rest := Filter(bs[..|bs| - 1], folder);
      assert bs == bs[..|bs| - 1] + [bs[|bs| - 1]];
      if bs[|bs| - 1].parentId == Some(folder) then rest + [bs[|bs| - 1]] else rest
  }

  lemma {:induction false} FilterAppend(a: seq<LocalBookmark>, b: seq<LocalBookmark>, folder: string)
    ensures Filter(a + b, folder) == Filter(a, folder) + Filter(b, folder)
    decreases |b|
  {
    if |b| == 0 {
      assert a + b == a;
    } else {
      assert (a + b)[..|a + b| - 1] == a + b[..|b| - 1];
      FilterAppend(a, b[..|b| - 1], folder);
    }
  }

  /**
   * The folder filter only decides what is recorded: the walk still enters
   * every subtree, so filtering the unfiltered walk gives the same list.
   */
  lemma {:induction false} WalkFiltered(n: Node, parentId: Option<string>, folder: string)
    ensures Walk(n, parentId, Some(folder)) == Filter(Walk(n, parentId, None), folder)
    decreases n
  {
    var own := [BookmarkOf(n, parentId)];
    assert Filter(own, folder) == (if parentId == Some(folder) then own else []) by {
      assert own[..0] == [];
    }
    WalkChildrenFiltered(n.children, NodeId(n), folder);
    FilterAppend(own, WalkChildren(n.children, NodeId(n), None), folder);
  }

  lemma {:induction false} WalkChildrenFiltered(cs: seq<Node>, parentId: string, folder: string)
    ensures WalkChildren(cs, parentId, Some(folder)) == Filter(WalkChildren(cs, parentId, None), folder)
    decreases cs
  {
    if |cs| > 0 {
      var init := cs[..|cs| - 1];
      WalkChildrenFiltered(init, parentId, folder);
      WalkFiltered(cs[|cs| - 1], Some(parentId), folder);
      FilterAppend(WalkChildren(init, parentId, None), Walk(cs[|cs| - 1], Some(parentId), None), folder);
    }
  }

  /** The roots of the file: `data.get("roots", {})` values, of which only objects are walked. */
  datatype RootValue = ObjectRoot(node: Node) | OtherRoot

  function WalkRoots(roots: seq<RootValue>, folderId: Option<string>): seq<LocalBookmark> {
    if |roots| == 0 then []
    else
      WalkRoots(roots[..|roots| - 1], folderId)
      + match roots[|roots| - 1]
        case ObjectRoot(n) => Walk(n, None, folderId)
        case OtherRoot => []
  }

  /** The walk of one more child extends the walk of the children before it. */
  lemma WalkChildrenStep(cs: seq<Node>, i: nat, parentId: string, folderId: Option<string>)
    requires i < |cs|
    ensures WalkChildren(cs[..i + 1], parentId, folderId)
            == WalkChildren(cs[..i], parentId, folderId) + Walk(cs[i], Some(parentId), folderId)
  {
    var next := cs[..i + 1];
    assert next[..|next| - 1] == cs[..i];
  }

  /**
   * The recursive closure of `get_bookmarks`, appending to the shared list.
   * Returns the list after processing `n` and its subtree.
   */
  method ProcessNode(n: Node, parentId: Option<string>, folderId: Option<string>, acc: seq<LocalBookmark>)
    returns (out: seq<LocalBookmark>)
    ensures out == acc + Walk(n, parentId, folderId)
    decreases n
  {
    var own := if Selected(folderId, parentId) then [BookmarkOf(n, parentId)] else [];
    out := acc + own;
    var base := out;
    var id := NodeId(n);
    var i := 0;
    while i < |n.children|
      invariant 0 <= i <= |n.children|
      invariant out == base + WalkChildren(n.children[..i], id, folderId)
    {
      var c := n.children[i];
      ghost var done := WalkChildren(n.children[..i], id, folderId);
      WalkChildrenStep(n.children, i, id, folderId);
      out := ProcessNode(c, Some(id), folderId, out);
      AppendAssoc(base, done, Walk(c, Some(id), folderId));
      i := i + 1;
    }
    assert n.children[..|n.children|] == n.children;
    AppendAssoc(acc, own, WalkChildren(n.children, id, folderId));
  }

  /** `get_bookmarks(folder_id)` over an existing Bookmarks file. */
  method GetBookmarks(roots: seq<RootValue>, folderId: Option<string>) returns (bookmarks: seq<LocalBookmark>)
    ensures bookmarks == WalkRoots(roots, folderId)
  {
    bookmarks := [];
    var i := 0;
    while i < |roots|
      invariant 0 <= i <= |roots|
      invariant bookmarks == WalkRoots(roots[..i], folderId)
    {
      assert roots[..i + 1][..i] == roots[..i];
      if roots[i].ObjectRoot? {
        bookmarks := ProcessNode(roots[i].node, None, folderId, bookmarks);
      }
      i := i + 1;
    }
    assert roots[..|roots|] == roots;
  }

  predicate BookmarkMatches(b: LocalBookmark, query: string) {
    ContainsIgnoreCase(b.title, query) || ContainsIgnoreCase(b.url, query)
  }

  /** `search_bookmarks`: all bookmarks whose lower-cased title or url contains the lower-cased query. */
  function SearchBookmarks(all: seq<LocalBookmark>, query: string): (r: seq<LocalBookmark>)
    ensures |r| <= |all|
    ensures forall b :: b in r <==> b in all && BookmarkMatches(b, query)
  {
    if |all| == 0 then []
    else
      var rest := SearchBookmarks(all[..|all| - 1], query);
      assert all == all[..|all| - 1] + [all[|all| - 1]];
      if BookmarkMatches(all[|all| - 1], query) then rest + [all[|all| - 1]] else rest
  }

  // ---- history ----

  /** A row of the `urls` table: url, title and visit_count may be NULL. */
  datatype UrlRow = UrlRow(url: Option<string>, title: Option<string>, visitCount: Option<int>, lastVisitTime: int)
  datatype LocalHistoryEntry = LocalHistoryEntry(url: string, title: string, visitTimeUs: int, visitCount: int)

  function LastVisit(r: UrlRow): int {
    r.lastVisitTime
  }

  /** `url LIKE %q% OR title LIKE %q%` and `last_visit_time >= cutoff`; NULL never matches LIKE. */
  predicate RowMatches(r: UrlRow, query: Option<string>, cutoff: Option<int>) {
    (query.Some? ==> (r.url.Some? && LikeContains(r.url.value, query.value))
                     || (r.title.Some? && LikeContains(r.title.value, query.value)))
    && (cutoff.Some? ==> r.lastVisitTime >= cutoff.value)
  }

  function MatchingRows(rows: seq<UrlRow>, query: Option<string>, cutoff: Option<int>): (r: seq<UrlRow>)
    ensures forall x :: x in r ==> x in rows && RowMatches(x, query, cutoff)
    ensures forall x :: x in rows && RowMatches(x, query, cutoff) ==> x in r
    ensures multiset(r) <= multiset(rows)
  {
    if |rows| == 0 then []
    else
      var init := rows[..|rows| - 1];
      var rest := MatchingRows(init, query, cutoff);
      var last := rows[|rows| - 1];
      assert rows == init + [last];
      if RowMatches(last, query, cutoff) then rest + [last] else rest
  }

  /** The rows the History query returns, newest first. */
  function HistoryRows(urls: seq<UrlRow>, query: Option<string>, daysBack: int, nowUnixUs: int, limit: int): seq<UrlRow> {
    var q := if query.Some? && query.value != "" then query else None;
    var cutoff := if daysBack != 0 then Some(nowUnixUs + ChromiumEpochOffset - daysBack * MicrosPerDay) else None;
    Limit(SortDesc(MatchingRows(urls, q, cutoff), LastVisit), limit)
  }

  /** The row loop of `get_history`: rows whose time does not convert are dropped; NULLs get defaults. */
  function EntriesOf(rows: seq<UrlRow>): (r: seq<LocalHistoryEntry>)
    ensures |r| <= |rows|
    ensures forall e :: e in r ==> e.visitCount != 0 && e.visitTimeUs >= 0
  {
    if |rows| == 0 then []
    else
      var rest := EntriesOf(rows[..|rows| - 1]);
      var row := rows[|rows| - 1];
      match ChromiumTimeToUnix(row.lastVisitTime)
      case None => rest
      case Some(t) =>
        rest + [LocalHistoryEntry(Get(row.url, ""), Get(row.title, ""), t,
                                  if row.visitCount.Some? && row.visitCount.value != 0 then row.visitCount.value else 1)]
  }

  /** A row is kept iff its time converts; a NULL or zero visit count becomes 1. */
  lemma {:induction false} EntriesOfKeepsConvertible(rows: seq<UrlRow>)
    ensures |EntriesOf(rows)| == |MatchingConvertible(rows)|
    ensures forall i :: 0 <= i < |EntriesOf(rows)| ==>
              var row := MatchingConvertible(rows)[i];
              EntriesOf(rows)[i].visitTimeUs + ChromiumEpochOffset == row.lastVisitTime
              && EntriesOf(rows)[i].visitCount == (if row.visitCount.Some? && row.visitCount.value != 0 then row.visitCount.value else 1)
  {
    if |rows| > 0 {
      EntriesOfKeepsConvertible(rows[..|rows| - 1]);
    }
  }

  function MatchingConvertible(rows: seq<UrlRow>): (r: seq<UrlRow>)
    ensures forall x :: x in r ==> x in rows && ChromiumTimeToUnix(x.lastVisitTime).Some?
    ensures forall x :: x in rows && ChromiumTimeToUnix(x.lastVisitTime).Some? ==> x in r
    ensures multiset(r) <= multiset(rows)
  {
    if |rows| == 0 then []
    else
      var init := rows[..|rows| - 1];
      var rest := MatchingConvertible(init);
      var last := rows[|rows| - 1];
      assert rows == init + [last];
      if ChromiumTimeToUnix(last.lastVisitTime).Some? then rest + [last] else rest
  }

  /** `get_history` over an existing History file. */
  method GetHistory(urls: seq<UrlRow>, query: Option<string>, limit: int, daysBack: int, nowUnixUs: int)
    returns (entries: seq<LocalHistoryEntry>)
    ensures entries == EntriesOf(HistoryRows(urls, query, daysBack, nowUnixUs, limit))
  {
    var rows := HistoryRows(urls, query, daysBack, nowUnixUs, limit);
    entries := [];
    var i := 0;
    while i < |rows|
      invariant 0 <= i <= |rows|
      invariant entries == EntriesOf(rows[..i])
    {
      assert rows[..i + 1][..i] == rows[..i];
      var row := rows[i];
      var visit := ChromiumTimeToUnix(row.lastVisitTime);
      if visit.Some? {
        entries := entries + [LocalHistoryEntry(Get(row.url, ""), Get(row.title, ""), visit.value,
                                                if row.visitCount.Some? && row.visitCount.value != 0 then row.visitCount.value else 1)];
      }
      i := i + 1;
    }
    assert rows[..|rows|] == rows;
  }

  // ---- tabs ----

  datatype LocalTab = LocalTab(url: string, title: string, faviconUrl: Option<string>, lastActiveUs: Option<int>)
  datatype LocalDevice = LocalDevice(id: string, name: string, deviceType: string, tabs: seq<LocalTab>)

  /** What `_parse_device_info` recovers from a `device_info-dt-` record: the id, the name and the type. */
  datatype DeviceInfo = DeviceInfo(id: string, name: string, deviceType: string)

  /** A `sessions-dt-` record: its bytes as text, and the http(s) URLs found in it, in order. */
  datatype SessionRecord = SessionRecord(text: string, urls: seq<string>)

  /** Favicons, Google desktop assets and Twitter's static host are not tabs. */
  predicate SkippedUrl(u: string) {
    Contains(u, "/favicon") || Contains(u, "/s/desktop/") || StartsWith(u, "https://abs.twimg.com")
  }

  function Urls(tabs: seq<LocalTab>): (r: seq<string>)
    ensures |r| == |tabs|
    ensures forall k :: 0 <= k < |tabs| ==> r[k] == tabs[k].url
  {
    seq(|tabs|, k requires 0 <= k < |tabs| => tabs[k].url)
  }

  predicate DistinctUrls(tabs: seq<LocalTab>) {
    forall i, j :: 0 <= i < j < |tabs| ==> tabs[i].url != tabs[j].url
  }

  /** The tabs of a device after one record's URLs, skipping non-tab URLs and URLs already present. */
  function AddUrls(tabs: seq<LocalTab>, urls: seq<string>): (r: seq<LocalTab>)
    ensures tabs <= r
    ensures DistinctUrls(tabs) ==> DistinctUrls(r)
    ensures forall k :: |tabs| <= k < |r| ==> r[k].url in urls && !SkippedUrl(r[k].url)
  {
    if |urls| == 0 then tabs
    else
      var before := AddUrls(tabs, urls[..|urls| - 1]);
      var u := urls[|urls| - 1];
      if SkippedUrl(u) || u in Urls(before) then before
      else before + [LocalTab(u, "", None, None)]
  }

  /** The device map of `get_tabs`: ids in insertion order and the device per id. */
  datatype DeviceMap = DeviceMap(ids: seq<string>, byId: map<string, LocalDevice>)

  ghost predicate MapValid(m: DeviceMap) {
    (forall k :: k in m.byId <==> k in m.ids)
    && (forall i, j :: 0 <= i < j < |m.ids| ==> m.ids[i] != m.ids[j])
  }

  predicate TabsDistinct(m: DeviceMap) {
    forall k :: k in m.byId ==> DistinctUrls(m.byId[k].tabs)
  }

  /** The first device id, in map order, that occurs in the record text. */
  function FirstMentioned(ids: seq<string>, text: string): (r: Option<nat>)
    ensures r.Some? ==> r.value < |ids| && Contains(text, ids[r.value])
                        && forall j :: 0 <= j < r.value ==> !Contains(text, ids[j])
    ensures r.None? ==> forall j :: 0 <= j < |ids| ==> !Contains(text, ids[j])
  {
    if |ids| == 0 then None
    else if Contains(text, ids[0]) then Some(0)
    else
      var r := FirstMentioned(ids[1..], text);
      if r.Some? then Some(r.value + 1) else None
  }

  /**
   * `_parse_session_entry`: only the first device whose id occurs in the
   * record gets the record's new URLs; every other device is untouched.
   */
  method ParseSessionEntry(m: DeviceMap, record: SessionRecord) returns (r: DeviceMap)
    requires MapValid(m)
    ensures r == SessionEntry(m, record)
    ensures MapValid(r) && r.ids == m.ids && r.byId.Keys == m.byId.Keys
    ensures TabsDistinct(m) ==> TabsDistinct(r)
    ensures var first := FirstMentioned(m.ids, record.text);
            forall k :: k in m.byId ==>
              r.byId[k] == if first.Some? && k == m.ids[first.value]
                           then m.byId[k].(tabs := AddUrls(m.byId[k].tabs, record.urls))
                           else m.byId[k]
  {
    r := m;
    var i := 0;
    while i < |m.ids|
      invariant 0 <= i <= |m.ids|
      invariant forall j :: 0 <= j < i ==> !Contains(record.text, m.ids[j])
    {
      var id := m.ids[i];
      if Contains(record.text, id) {
        var device := m.byId[id];
        var tabs := AppendNewUrls(device.tabs, record.urls);
        r := DeviceMap(m.ids, m.byId[id := device.(tabs := tabs)]);
        assert FirstMentioned(m.ids, record.text) == Some(i) by {
          FirstMentionedAt(m.ids, record.text, i);
        }
        return;
      }
      i := i + 1;
    }
    assert FirstMentioned(m.ids, record.text).None?;
  }

  /** The URL loop of `_parse_session_entry`: each URL not skipped and not yet listed becomes a tab. */
  method AppendNewUrls(existing: seq<LocalTab>, urls: seq<string>) returns (tabs: seq<LocalTab>)
    ensures tabs == AddUrls(existing, urls)
  {
    tabs := existing;
    var k := 0;
    while k < |urls|
      invariant 0 <= k <= |urls|
      invariant tabs == AddUrls(existing, urls[..k])
    {
      assert urls[..k + 1][..k] == urls[..k];
      var u := urls[k];
      if !SkippedUrl(u) && u !in Urls(tabs) {
        tabs := tabs + [LocalTab(u, "", None, None)];
      }
      k := k + 1;
    }
    assert urls[..k] == urls;
  }

  lemma {:induction false} FirstMentionedAt(ids: seq<string>, text: string, i: nat)
    requires i < |ids| && Contains(text, ids[i])
    requires forall j :: 0 <= j < i ==> !Contains(text, ids[j])
    ensures FirstMentioned(ids, text) == Some(i)
  {
    if i > 0 {
      FirstMentionedAt(ids[1..], text, i - 1);
    }
  }

  /** The device map after one session record. */
  function SessionEntry(m: DeviceMap, record: SessionRecord): (r: DeviceMap)
    requires MapValid(m)
    ensures MapValid(r) && r.ids == m.ids
    ensures TabsDistinct(m) ==> TabsDistinct(r)
  {
    match FirstMentioned(m.ids, record.text)
    case None => m
    case Some(i) =>
      var d := m.byId[m.ids[i]];
      DeviceMap(m.ids, m.byId[m.ids[i] := d.(tabs := AddUrls(d.tabs, record.urls))])
  }

  /** The device map after every device record, before any session record. */
  function Registered(infos: seq<DeviceInfo>): (m: DeviceMap)
    ensures MapValid(m) && TabsDistinct(m)
  {
    if |infos| == 0 then DeviceMap([], map[])
    else
      var info := infos[|infos| - 1];
      Put(Registered(infos[..|infos| - 1]), LocalDevice(info.id, info.name, info.deviceType, []))
  }

  function AfterSessions(m: DeviceMap, sessions: seq<SessionRecord>): (r: DeviceMap)
    requires MapValid(m)
    ensures MapValid(r)
    ensures TabsDistinct(m) ==> TabsDistinct(r)
  {
    if |sessions| == 0 then m
    else SessionEntry(AfterSessions(m, sessions[..|sessions| - 1]), sessions[|sessions| - 1])
  }

  /** What `get_tabs` returns for the given device and session records. */
  function OpenTabs(infos: seq<DeviceInfo>, sessions: seq<SessionRecord>): seq<LocalDevice> {
    var m := AfterSessions(Registered(infos), sessions);
    WithTabs(m, |m.ids|)
  }

  /** `devices_map[device_id] = device_info`: a new id goes last, a known id keeps its place. */
  function Put(m: DeviceMap, d: LocalDevice): (r: DeviceMap)
    requires MapValid(m)
    ensures MapValid(r)
    ensures r.byId == m.byId[d.id := d]
  {
    if d.id in m.byId then DeviceMap(m.ids, m.byId[d.id := d])
    else DeviceMap(m.ids + [d.id], m.byId[d.id := d])
  }

  /** `[d for d in devices_map.values() if d.tabs]`. */
  function WithTabs(m: DeviceMap, n: nat): (r: seq<LocalDevice>)
    requires MapValid(m) && n <= |m.ids|
    ensures forall d :: d in r ==> |d.tabs| > 0
  {
    if n == 0 then []
    else
      var d := m.byId[m.ids[n - 1]];
      WithTabs(m, n - 1) + (if |d.tabs| > 0 then [d] else [])
  }

  /**
   * `get_tabs`: register every device record, attach each session record's
   * URLs, and return the devices that ended up with at least one tab. Every
   * returned device lists each URL once.
   */
  method GetTabs(deviceInfos: seq<DeviceInfo>, sessions: seq<SessionRecord>) returns (devices: seq<LocalDevice>)
    ensures devices == OpenTabs(deviceInfos, sessions)
    ensures forall d :: d in devices ==> |d.tabs| > 0 && DistinctUrls(d.tabs)
  {
    var registered := RegisterDevices(deviceInfos);
    var m := ApplySessions(registered, sessions);
    devices := CollectWithTabs(m);
    WithTabsDistinct(m, |m.ids|);
  }

  /** The first loop of `get_tabs`: one map entry per device record. */
  method RegisterDevices(deviceInfos: seq<DeviceInfo>) returns (m: DeviceMap)
    ensures m == Registered(deviceInfos)
  {
    m := DeviceMap([], map[]);
    var i := 0;
    while i < |deviceInfos|
      invariant 0 <= i <= |deviceInfos|
      invariant m == Registered(deviceInfos[..i])
    {
      assert deviceInfos[..i + 1][..i] == deviceInfos[..i];
      var info := deviceInfos[i];
      m := Put(m, LocalDevice(info.id, info.name, info.deviceType, []));
      i := i + 1;
    }
    assert deviceInfos[..|deviceInfos|] == deviceInfos;
  }

  /** The second loop of `get_tabs`: each session record in turn. */
  method ApplySessions(registered: DeviceMap, sessions: seq<SessionRecord>) returns (m: DeviceMap)
    requires MapValid(registered)
    ensures m == AfterSessions(registered, sessions)
  {
    m := registered;
    var k := 0;
    while k < |sessions|
      invariant 0 <= k <= |sessions|
      invariant MapValid(m) && m == AfterSessions(registered, sessions[..k])
    {
      assert sessions[..k + 1][..k] == sessions[..k];
      m := ParseSessionEntry(m, sessions[k]);
      k := k + 1;
    }
    assert sessions[..|sessions|] == sessions;
  }

  /** The devices, in map order, that hold at least one tab. */
  method CollectWithTabs(m: DeviceMap) returns (devices: seq<LocalDevice>)
    requires MapValid(m)
    ensures devices == WithTabs(m, |m.ids|)
  {
    devices := [];
    var j := 0;
    while j < |m.ids|
      invariant 0 <= j <= |m.ids|
      invariant devices == WithTabs(m, j)
    {
      var d := m.byId[m.ids[j]];
      if |d.tabs| > 0 {
        devices := devices + [d];
      }
      j := j + 1;
    }
  }

  lemma {:induction false} WithTabsDistinct(m: DeviceMap, n: nat)
    requires MapValid(m) && TabsDistinct(m) && n <= |m.ids|
    ensures forall d :: d in WithTabs(m, n) ==> DistinctUrls(d.tabs)
  {
    if n > 0 {
      WithTabsDistinct(m, n - 1);
    }
  }
}
