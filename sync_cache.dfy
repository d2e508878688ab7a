/**
 * The SQLite cache of the sync client (chromium_sync/cache.py), with each
 * table held as an in-memory sequence of rows in insertion order and the
 * connection as a flag. Every `save_*` replaces its table wholesale and
 * stamps `last_sync_time`; every reader returns nothing while no connection
 * is open.
 *
 * Timestamps stay in the model's microsecond integers (their ISO-8601 text
 * form is not modelled); the current time's ISO text is an input.
 */
module SyncCache {
  import opened Util
  import opened SyncClient

  const LastSyncTimeKey := "last_sync_time"
  const DuplicateBookmarkId := "UNIQUE constraint failed: bookmarks.id"
  const DevicePrefix := "device_"

  datatype DeviceRow = DeviceRow(id: string, name: string, deviceType: string)
  datatype TabRow = TabRow(deviceId: string, tab: Tab)

  // ---- bookmarks ----

  function Ids(rows: seq<Bookmark>): (r: seq<string>)
    ensures |r| == |rows|
    ensures forall i :: 0 <= i < |rows| ==> r[i] == rows[i].id
  {
    seq(|rows|, i requires 0 <= i < |rows| => rows[i].id)
  }

  /** No two bookmarks share an id (the table's primary key). */
  predicate DistinctIds(rows: seq<Bookmark>) {
    forall i, j :: 0 <= i < j < |rows| ==> rows[i].id != rows[j].id
  }

  /** `get_bookmarks(folder_id)` with a non-empty folder: the rows whose parent is that folder, in table order. */
  function ChildrenOf(rows: seq<Bookmark>, folder: string): (r: seq<Bookmark>)
    ensures |r| <= |rows|
    ensures forall b :: b in r <==> b in rows && b.parentId == Some(folder)
  {
    if |rows| == 0 then []
    else
      var rest := ChildrenOf(rows[..|rows| - 1], folder);
      var last := rows[|rows| - 1];
      assert rows == rows[..|rows| - 1] + [last];
      if last.parentId == Some(folder) then rest + [last] else rest
  }

  /** `title LIKE %q% OR url LIKE %q%`: LIKE's wildcards and its ASCII case-insensitivity. */
  predicate BookmarkMatches(b: Bookmark, query: string) {
    LikeContains(b.title, query) || LikeContains(b.url, query)
  }

  function MatchingBookmarks(rows: seq<Bookmark>, query: string): (r: seq<Bookmark>)
    ensures |r| <= |rows|
  {
    if |rows| == 0 then []
    else
      var rest := MatchingBookmarks(rows[..|rows| - 1], query);
      var last := rows[|rows| - 1];
      if BookmarkMatches(last, query) then rest + [last] else rest
  }

  /** `search_bookmarks` keeps exactly the rows that match the query. */
  lemma {:induction false} MatchingBookmarksMembers(rows: seq<Bookmark>, query: string)
    ensures forall b :: b in MatchingBookmarks(rows, query) <==> b in rows && BookmarkMatches(b, query)
  {
    if |rows| > 0 {
      var init := rows[..|rows| - 1];
      MatchingBookmarksMembers(init, query);
      assert rows == init + [rows[|rows| - 1]];
    }
  }

  // ---- devices and tabs ----

  function DeviceId(i: nat): string {
    DevicePrefix + Decimal(i)
  }

  lemma DeviceIdInjective(i: nat, j: nat)
    requires i != j
    ensures DeviceId(i) != DeviceId(j)
  {
    DecimalRoundTrip(i);
    DecimalRoundTrip(j);
    assert DeviceId(i)[|DevicePrefix|..] == Decimal(i);
    assert DeviceId(j)[|DevicePrefix|..] == Decimal(j);
  }

  function TabRowsFor(id: string, tabs: seq<Tab>): (r: seq<TabRow>)
    ensures |r| == |tabs|
    ensures forall k :: 0 <= k < |r| ==> r[k] == TabRow(id, tabs[k])
  {
    seq(|tabs|, k requires 0 <= k < |tabs| => TabRow(id, tabs[k]))
  }

  /** The device rows `save_devices` writes: the i-th device gets id "device_i". */
  function DeviceRowsOf(ds: seq<Device>): (r: seq<DeviceRow>)
    ensures |r| == |ds|
    ensures forall i :: 0 <= i < |ds| ==> r[i] == DeviceRow(DeviceId(i), ds[i].name, ds[i].deviceType)
  {
    seq(|ds|, i requires 0 <= i < |ds| => DeviceRow(DeviceId(i), ds[i].name, ds[i].deviceType))
  }

  /** The tab rows `save_devices` writes: each device's tabs in order, linked to its id. */
  function TabRowsOf(ds: seq<Device>): seq<TabRow> {
    if |ds| == 0 then []
    else TabRowsOf(ds[..|ds| - 1]) + TabRowsFor(DeviceId(|ds| - 1), ds[|ds| - 1].tabs)
  }

  /** `SELECT * FROM tabs WHERE device_id = ?`, in insertion order. */
  function TabsOf(rows: seq<TabRow>, id: string): (r: seq<Tab>)
    ensures |r| <= |rows|
  {
    if |rows| == 0 then []
    else
      var rest := TabsOf(rows[..|rows| - 1], id);
      if rows[|rows| - 1].deviceId == id then rest + [rows[|rows| - 1].tab] else rest
  }

  /** What `get_devices` returns: every device row with exactly the tabs linked to its id. */
  function DevicesOf(drows: seq<DeviceRow>, trows: seq<TabRow>): (r: seq<Device>)
    ensures |r| == |drows|
    ensures forall i :: 0 <= i < |drows| ==>
              r[i] == Device(drows[i].name, drows[i].deviceType, TabsOf(trows, drows[i].id))
  {
    seq(|drows|, i requires 0 <= i < |drows| => Device(drows[i].name, drows[i].deviceType, TabsOf(trows, drows[i].id)))
  }

  lemma {:induction false} TabsOfAppend(a: seq<TabRow>, b: seq<TabRow>, id: string)
    ensures TabsOf(a + b, id) == TabsOf(a, id) + TabsOf(b, id)
    decreases |b|
  {
    if |b| == 0 {
      assert a + b == a;
    } else {
      assert (a + b)[..|a + b| - 1] == a + b[..|b| - 1];
      TabsOfAppend(a, b[..|b| - 1], id);
    }
  }

  lemma {:induction false} TabsOfOneDevice(owner: string, tabs: seq<Tab>, id: string)
    ensures TabsOf(TabRowsFor(owner, tabs), id) == if owner == id then tabs else []
    decreases |tabs|
  {
    if |tabs| > 0 {
      var rows := TabRowsFor(owner, tabs);
      assert rows[..|rows| - 1] == TabRowsFor(owner, tabs[..|tabs| - 1]);
      TabsOfOneDevice(owner, tabs[..|tabs| - 1], id);
    }
  }

  /** The tab rows of devices 0..n-1 hold no tab for device n or later. */
  lemma {:induction false} TabsOfDevice(ds: seq<Device>, i: nat)
    requires i < |ds|
    ensures TabsOf(TabRowsOf(ds), DeviceId(i)) == ds[i].tabs
    decreases |ds|
  {
    var n := |ds| - 1;
    var init := ds[..n];
    TabsOfAppend(TabRowsOf(init), TabRowsFor(DeviceId(n), ds[n].tabs), DeviceId(i));
    TabsOfOneDevice(DeviceId(n), ds[n].tabs, DeviceId(i));
    if i < n {
      DeviceIdInjective(i, n);
      TabsOfDevice(init, i);
    } else {
      NoTabsBeyond(init, i);
    }
  }

  lemma {:induction false} NoTabsBeyond(ds: seq<Device>, i: nat)
    requires i >= |ds|
    ensures TabsOf(TabRowsOf(ds), DeviceId(i)) == []
    decreases |ds|
  {
    if |ds| > 0 {
      var n := |ds| - 1;
      TabsOfAppend(TabRowsOf(ds[..n]), TabRowsFor(DeviceId(n), ds[n].tabs), DeviceId(i));
      TabsOfOneDevice(DeviceId(n), ds[n].tabs, DeviceId(i));
      DeviceIdInjective(i, n);
      NoTabsBeyond(ds[..n], i);
    }
  }

  /** Saving devices and reading them back gives the same devices, each with exactly its own tabs. */
  lemma DevicesRoundTrip(ds: seq<Device>)
    ensures DevicesOf(DeviceRowsOf(ds), TabRowsOf(ds)) == ds
  {
    forall i | 0 <= i < |ds|
      ensures DevicesOf(DeviceRowsOf(ds), TabRowsOf(ds))[i] == ds[i]
    {
      TabsOfDevice(ds, i);
    }
  }

  // ---- history ----

  function VisitTime(e: HistoryEntry): int {
    e.visitTimeUs
  }

  /** The WHERE clause of `get_history`: an optional search term and an optional cutoff time. */
  predicate HistoryMatches(e: HistoryEntry, query: Option<string>, cutoffUs: Option<int>) {
    (query.Some? ==> LikeContains(e.title, query.value) || LikeContains(e.url, query.value))
    && (cutoffUs.Some? ==> e.visitTimeUs >= cutoffUs.value)
  }

  function MatchingHistory(rows: seq<HistoryEntry>, query: Option<string>, cutoffUs: Option<int>): (r: seq<HistoryEntry>)
    ensures |r| <= |rows|
    ensures forall e :: e in r ==> HistoryMatches(e, query, cutoffUs)
    ensures multiset(r) <= multiset(rows)
    ensures forall e :: e in rows && HistoryMatches(e, query, cutoffUs) ==> e in r
  {
    if |rows| == 0 then []
    else
      var init := rows[..|rows| - 1];
      var rest := MatchingHistory(init, query, cutoffUs);
      var last := rows[|rows| - 1];
      assert rows == init + [last];
      if HistoryMatches(last, query, cutoffUs) then rest + [last] else rest
  }

  /** A stored row as `get_history` rebuilds it: a zero visit count reads back as 1 (`or 1`). */
  function EntryOfRow(e: HistoryEntry): HistoryEntry {
    e.(visitCount := if e.visitCount == 0 then 1 else e.visitCount)
  }

  function HistoryQuery(rows: seq<HistoryEntry>, query: Option<string>, cutoffUs: Option<int>, limit: int): seq<HistoryEntry> {
    Entries(Limit(SortDesc(MatchingHistory(rows, query, cutoffUs), VisitTime), limit))
  }

  /** The entry of each selected row, in order. */
  function Entries(picked: seq<HistoryEntry>): seq<HistoryEntry> {
    seq(|picked|, i requires 0 <= i < |picked| => EntryOfRow(picked[i]))
  }

  /** The row-to-entry loop of `get_history`. */
  method CollectEntries(picked: seq<HistoryEntry>) returns (r: seq<HistoryEntry>)
    ensures r == Entries(picked)
  {
    r := [];
    var i := 0;
    while i < |picked|
      invariant 0 <= i <= |picked|
      invariant r == seq(i, k requires 0 <= k < i => EntryOfRow(picked[k]))
    {
      r := r + [EntryOfRow(picked[i])];
      i := i + 1;
    }
  }

  /** The row loop of `search_bookmarks`. */
  method CollectMatches(rows: seq<Bookmark>, query: string) returns (r: seq<Bookmark>)
    ensures r == MatchingBookmarks(rows, query)
  {
    r := [];
    var i := 0;
    while i < |rows|
      invariant 0 <= i <= |rows|
      invariant r == MatchingBookmarks(rows[..i], query)
    {
      assert rows[..i + 1][..i] == rows[..i];
      if BookmarkMatches(rows[i], query) {
        r := r + [rows[i]];
      }
      i := i + 1;
    }
    assert rows[..|rows|] == rows;
  }

  /**
   * `get_history` returns at most `limit` entries, all matching the search and
   * the cutoff, newest first, each one a stored row.
   */
  lemma HistoryQueryProperties(rows: seq<HistoryEntry>, query: Option<string>, cutoffUs: Option<int>, limit: int)
    ensures var r := HistoryQuery(rows, query, cutoffUs, limit);
            (limit >= 0 ==> |r| <= limit)
            && (forall i :: 0 <= i < |r| ==> HistoryMatches(r[i], query, cutoffUs))
            && (forall i, j :: 0 <= i < j < |r| ==> r[i].visitTimeUs >= r[j].visitTimeUs)
            && (forall i :: 0 <= i < |r| ==> exists k :: 0 <= k < |rows| && r[i] == EntryOfRow(rows[k]))
  {
    var matching := MatchingHistory(rows, query, cutoffUs);
    var sorted := SortDesc(matching, VisitTime);
    var picked := Limit(sorted, limit);
    var r := HistoryQuery(rows, query, cutoffUs, limit);
    assert |r| == |picked|;
    forall i, j | 0 <= i < j < |r|
      ensures r[i].visitTimeUs >= r[j].visitTimeUs
    {
      assert r[i].visitTimeUs == sorted[i].visitTimeUs && r[j].visitTimeUs == sorted[j].visitTimeUs;
    }
    forall i | 0 <= i < |r|
      ensures HistoryMatches(r[i], query, cutoffUs) && exists k :: 0 <= k < |rows| && r[i] == EntryOfRow(rows[k])
    {
      assert picked[i] == sorted[i];
      assert sorted[i] in multiset(matching);
      assert picked[i] in matching;
      assert picked[i] in multiset(rows);
      var k :| 0 <= k < |rows| && rows[k] == picked[i];
      assert r[i] == EntryOfRow(rows[k]);
      assert r[i].title == picked[i].title && r[i].url == picked[i].url && r[i].visitTimeUs == picked[i].visitTimeUs;
    }
  }

  /** With no search term, no cutoff and a limit at least the row count, `get_history` returns every row. */
  lemma HistoryQueryAll(rows: seq<HistoryEntry>, limit: int)
    requires limit >= |rows|
    ensures |HistoryQuery(rows, None, None, limit)| == |rows|
    ensures forall e :: e in rows ==> EntryOfRow(e) in HistoryQuery(rows, None, None, limit)
  {
    MatchingAll(rows);
    var sorted := SortDesc(rows, VisitTime);
    var r := HistoryQuery(rows, None, None, limit);
    forall e | e in rows
      ensures EntryOfRow(e) in r
    {
      assert e in multiset(sorted);
      var k :| 0 <= k < |sorted| && sorted[k] == e;
      assert r[k] == EntryOfRow(e);
    }
  }

  lemma {:induction false} MatchingAll(rows: seq<HistoryEntry>)
    ensures MatchingHistory(rows, None, None) == rows
  {
    if |rows| > 0 {
      MatchingAll(rows[..|rows| - 1]);
      assert rows[..|rows| - 1] + [rows[|rows| - 1]] == rows;
    }
  }

  class Cache {
    /** Whether `_conn` is set. */
    var open: bool
    var metadata: map<string, string>
    var bookmarks: seq<Bookmark>
    var devices: seq<DeviceRow>
    var tabs: seq<TabRow>
    var history: seq<HistoryEntry>

    /** A cache over an empty database file, not yet connected. */
    constructor ()
      ensures !open && metadata == map[] && bookmarks == [] && devices == [] && tabs == [] && history == []
    {
      open := false;
      metadata := map[];
      bookmarks := [];
      devices := [];
      tabs := [];
      history := [];
    }

    /** `initialize`: connect; `CREATE TABLE IF NOT EXISTS` keeps whatever the file already holds. */
    method Initialize()
      modifies this`open
      ensures open
    {
      open := true;
    }

    method Close()
      modifies this`open
      ensures !open
    {
      open := false;
    }

    method GetMetadata(key: string) returns (r: Option<string>)
      ensures !open ==> r == None
      ensures open ==> (r.Some? <==> key in metadata)
      ensures r.Some? ==> key in metadata && r.value == metadata[key]
    {
      if !open {
        return None;
      }
      if key in metadata {
        return Some(metadata[key]);
      }
      return None;
    }

    /** `INSERT OR REPLACE` into metadata; nothing without a connection. */
    method SetMetadata(key: string, value: string)
      modifies this`metadata
      ensures metadata == if open then old(metadata)[key := value] else old(metadata)
    {
      if open {
        metadata := metadata[key := value];
      }
    }

    /** `get_last_sync_time`: None until a non-empty value is stored. */
    method GetLastSyncTime() returns (r: Option<string>)
      ensures r.Some? <==> open && LastSyncTimeKey in metadata && metadata[LastSyncTimeKey] != ""
      ensures r.Some? ==> r.value == metadata[LastSyncTimeKey]
    {
      var value := GetMetadata(LastSyncTimeKey);
      if value.Some? && value.value != "" {
        return value;
      }
      return None;
    }

    /** `set_last_sync_time(time)`: an absent time means now. */
    method SetLastSyncTime(time: Option<string>, nowIso: string)
      modifies this`metadata
      ensures metadata == if open then old(metadata)[LastSyncTimeKey := if time.Some? && time.value != "" then time.value else nowIso]
                          else old(metadata)
    {
      var t := if time.Some? && time.value != "" then time.value else nowIso;
      SetMetadata(LastSyncTimeKey, t);
    }

    /**
     * `save_bookmarks`: delete every row, then insert the given list in order.
     * A repeated id violates the primary key: the insert raises after the
     * rows before it were written, and the sync time is not stamped.
     */
    method SaveBookmarks(bms: seq<Bookmark>, nowIso: string) returns (r: Result<()>)
      modifies this`bookmarks, this`metadata
      ensures !open ==> r.Ok? && bookmarks == old(bookmarks) && metadata == old(metadata)
      ensures open && DistinctIds(bms) ==> r.Ok? && bookmarks == bms && metadata == old(metadata)[LastSyncTimeKey := nowIso]
      ensures open && !DistinctIds(bms) ==>
                r == Err(DuplicateBookmarkId) && metadata == old(metadata)
                && |bookmarks| < |bms| && bookmarks == bms[..|bookmarks|] && DistinctIds(bookmarks)
                && bms[|bookmarks|].id in Ids(bookmarks)
    {
      if !open {
        return Ok(());
      }
      bookmarks := [];
      var i := 0;
      while i < |bms|
        invariant 0 <= i <= |bms|
        invariant bookmarks == bms[..i] && DistinctIds(bookmarks)
        invariant metadata == old(metadata)
      {
        if bms[i].id in Ids(bookmarks) {
          return Err(DuplicateBookmarkId);
        }
        bookmarks := bookmarks + [bms[i]];
        i := i + 1;
      }
      assert bms[..|bms|] == bms;
      SetLastSyncTime(None, nowIso);
      return Ok(());
    }

    /** `get_bookmarks(folder_id)`: a non-empty folder id filters by parent, otherwise every row. */
    method GetBookmarks(folderId: Option<string>) returns (r: seq<Bookmark>)
      ensures !open ==> r == []
      ensures open && folderId.Some? && folderId.value != "" ==> r == ChildrenOf(bookmarks, folderId.value)
      ensures open && (folderId.None? || folderId.value == "") ==> r == bookmarks
    {
      if !open {
        return [];
      }
      r := [];
      var i := 0;
      while i < |bookmarks|
        invariant 0 <= i <= |bookmarks|
        invariant folderId.Some? && folderId.value != "" ==> r == ChildrenOf(bookmarks[..i], folderId.value)
        invariant folderId.None? || folderId.value == "" ==> r == bookmarks[..i]
      {
        assert bookmarks[..i + 1][..i] == bookmarks[..i];
        var b := bookmarks[i];
        if folderId.None? || folderId.value == "" || b.parentId == Some(folderId.value) {
          r := r + [b];
        }
        i := i + 1;
      }
      assert bookmarks[..|bookmarks|] == bookmarks;
    }

    /** `search_bookmarks(query)`: rows whose title or url contains the query, ignoring ASCII case. */
    method SearchBookmarks(query: string) returns (r: seq<Bookmark>)
      ensures !open ==> r == []
      ensures open ==> r == MatchingBookmarks(bookmarks, query)
    {
      if !open {
        return [];
      }
      r := CollectMatches(bookmarks, query);
    }

    /** `save_devices`: clear both tables, then write device i as "device_i" followed by its tabs. */
    method SaveDevices(ds: seq<Device>, nowIso: string)
      modifies this`devices, this`tabs, this`metadata
      ensures !open ==> devices == old(devices) && tabs == old(tabs) && metadata == old(metadata)
      ensures open ==> devices == DeviceRowsOf(ds) && tabs == TabRowsOf(ds)
                       && metadata == old(metadata)[LastSyncTimeKey := nowIso]
    {
      if !open {
        return;
      }
      tabs := [];
      devices := [];
      var i := 0;
      while i < |ds|
        invariant 0 <= i <= |ds|
        invariant devices == DeviceRowsOf(ds[..i]) && tabs == TabRowsOf(ds[..i])
        invariant metadata == old(metadata) && open
      {
        var id := DeviceId(i);
        devices := devices + [DeviceRow(id, ds[i].name, ds[i].deviceType)];
        InsertTabs(id, ds[i].tabs);
        assert ds[..i + 1][..i] == ds[..i];
        assert DeviceRowsOf(ds[..i + 1]) == DeviceRowsOf(ds[..i]) + [DeviceRow(id, ds[i].name, ds[i].deviceType)];
        i := i + 1;
      }
      assert ds[..|ds|] == ds;
      SetLastSyncTime(None, nowIso);
    }

    /** The inner loop of `save_devices`: one tab row per tab, linked to `id`. */
    method InsertTabs(id: string, ts: seq<Tab>)
      modifies this`tabs
      ensures tabs == old(tabs) + TabRowsFor(id, ts)
    {
      var k := 0;
      while k < |ts|
        invariant 0 <= k <= |ts|
        invariant tabs == old(tabs) + TabRowsFor(id, ts[..k])
      {
        assert TabRowsFor(id, ts[..k + 1]) == TabRowsFor(id, ts[..k]) + [TabRow(id, ts[k])];
        tabs := tabs + [TabRow(id, ts[k])];
        k := k + 1;
      }
      assert ts[..k] == ts;
    }

    /** `get_devices`: each device row with the tabs whose device_id is its id. */
    method GetDevices() returns (r: seq<Device>)
      ensures !open ==> r == []
      ensures open ==> r == DevicesOf(devices, tabs)
    {
      if !open {
        return [];
      }
      r := [];
      var i := 0;
      while i < |devices|
        invariant 0 <= i <= |devices|
        invariant r == DevicesOf(devices[..i], tabs)
      {
        var row := devices[i];
        var found: seq<Tab> := [];
        var k := 0;
        while k < |tabs|
          invariant 0 <= k <= |tabs|
          invariant found == TabsOf(tabs[..k], row.id)
        {
          assert tabs[..k + 1][..k] == tabs[..k];
          if tabs[k].deviceId == row.id {
            found := found + [tabs[k].tab];
          }
          k := k + 1;
        }
        assert tabs[..k] == tabs;
        r := r + [Device(row.name, row.deviceType, found)];
        i := i + 1;
      }
      assert devices[..|devices|] == devices;
    }

    /** `save_history`: replace every row with the given entries. */
    method SaveHistory(entries: seq<HistoryEntry>, nowIso: string)
      modifies this`history, this`metadata
      ensures !open ==> history == old(history) && metadata == old(metadata)
      ensures open ==> history == entries && metadata == old(metadata)[LastSyncTimeKey := nowIso]
    {
      if !open {
        return;
      }
      history := [];
      var i := 0;
      while i < |entries|
        invariant 0 <= i <= |entries|
        invariant history == entries[..i]
        invariant metadata == old(metadata) && open
      {
        history := history + [entries[i]];
        i := i + 1;
      }
      assert entries[..|entries|] == entries;
      SetLastSyncTime(None, nowIso);
    }

    /**
     * `get_history(query, limit, days_back)`: a non-empty query and a
     * non-zero `days_back` each add a condition; the cutoff is local midnight
     * (an input) minus that many days.
     */
    method GetHistory(query: Option<string>, limit: int, daysBack: int, midnightUs: int) returns (r: seq<HistoryEntry>)
      ensures !open ==> r == []
      ensures open ==> r == HistoryQuery(history,
                                         if query.Some? && query.value != "" then query else None,
                                         if daysBack != 0 then Some(midnightUs - daysBack * 86400000000) else None,
                                         limit)
    {
      if !open {
        return [];
      }
      var q := if query.Some? && query.value != "" then query else None;
      var cutoff := if daysBack != 0 then Some(midnightUs - daysBack * 86400000000) else None;
      var rows := SortDesc(MatchingHistory(history, q, cutoff), VisitTime);
      var picked := Limit(rows, limit);
      r := CollectEntries(picked);
    }
  }
}
