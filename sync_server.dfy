/**
 * The MCP server of chromium-sync (chromium_sync/server.py): the module-wide
 * reader and pending-profile state, the browser-selection tool, the tool
 * dispatcher and the text formatters.
 *
 * The reader is represented by the profile path it was opened on; what the
 * profile's files hold is an input (`ProfileData`), as are the environment
 * variable, the home directory, path existence, the clock and `strftime`.
 */
module SyncServer {
  import opened Util
  import opened SyncLocal

  /** The contents of a profile's History, Bookmarks and Sync Data files (a missing file reads as empty). */
  datatype ProfileData = ProfileData(
    historyUrls: seq<UrlRow>,
    bookmarkRoots: seq<RootValue>,
    deviceInfos: seq<DeviceInfo>,
    sessions: seq<SessionRecord>)

  datatype Environment = Environment(
    envPath: Option<string>,              // CHROMIUM_PROFILE_PATH
    home: string,
    exists_: string -> bool,
    nowUnixUs: int,
    timeText: int -> string,              // strftime("%Y-%m-%d %H:%M") of a Unix time in microseconds
    data: string -> ProfileData)          // the files under a profile path

  /** Arguments of a tool call; an absent key is None. */
  datatype ToolArguments = ToolArguments(
    browser: Option<string>,
    saveDefault: Option<bool>,
    query: Option<string>,
    limit: Option<int>,
    daysBack: Option<int>,
    folder: Option<string>)

  const SelectTool := "chromium_select_browser"
  const TabsTool := "brave_sync_tabs"
  const HistoryTool := "brave_sync_history"
  const BookmarksTool := "brave_sync_bookmarks"
  const SearchTool := "brave_sync_search_bookmarks"

  const NoReaderMessage := "No browser profile found."
  const PromptHead := "Multiple browser profiles detected:\n"
  const PromptChoose := "\nUse the `chromium_select_browser` tool to choose one."
  const PromptSave := "Set `save_default: true` to remember your choice."
  const NoDevicesMessage := "No devices with open tabs found."
  const NoBookmarksMessage := "No bookmarks found."
  const NoHistoryMessage := "No history entries found."

  /** `CONFIG_FILE`. */
  function ConfigFile(home: string): string {
    home + "/.config/chromium-sync/profile"
  }

  // ---- profile selection ----

  function Names(profiles: seq<(string, string)>): (r: seq<string>)
    ensures |r| == |profiles| && forall k :: 0 <= k < |r| ==> r[k] == profiles[k].0
  {
    seq(|profiles|, k requires 0 <= k < |profiles| => profiles[k].0)
  }

  function UnknownBrowserMessage(browser: string, profiles: seq<(string, string)>): string {
    "Unknown browser '" + browser + "'. Available: " + Join(Names(profiles), ", ")
  }

  function SelectedMessage(browser: string, path: string, saveDefault: bool, home: string): string {
    "Selected " + browser + " (" + path + ")." + (if saveDefault then " Saved to " + ConfigFile(home) else "")
  }

  /** The candidates `select_browser` chooses from: the pending ones, or a fresh scan when none are pending. */
  function Candidates(pending: Option<seq<(string, string)>>, env: Environment): seq<(string, string)> {
    if pending.Some? && |pending.value| > 0 then pending.value
    else Profiles(BrowserPaths(env.home), env.exists_)
  }

  /** The head line, one line per candidate, and the two instructions. */
  function PromptLines(profiles: seq<(string, string)>): (r: seq<string>)
    ensures |r| == |profiles| + 3
    ensures r[0] == PromptHead
    ensures forall k :: 0 <= k < |profiles| ==> r[k + 1] == "  - **" + profiles[k].0 + "**: " + profiles[k].1
  {
    [PromptHead]
    + seq(|profiles|, k requires 0 <= k < |profiles| => "  - **" + profiles[k].0 + "**: " + profiles[k].1)
    + [PromptChoose, PromptSave]
  }

  /** `format_profile_selection_prompt`. */
  function SelectionPrompt(profiles: seq<(string, string)>): (r: string)
    ensures StartsWith(r, PromptHead)
  {
    JoinStartsWith(PromptLines(profiles), "\n");
    Join(PromptLines(profiles), "\n")
  }

  /** The prompt names every candidate browser together with its path. */
  lemma PromptListsCandidates(profiles: seq<(string, string)>, k: nat)
    requires k < |profiles|
    ensures Contains(SelectionPrompt(profiles), "  - **" + profiles[k].0 + "**: " + profiles[k].1)
  {
    var lines := PromptLines(profiles);
    assert lines[k + 1] == "  - **" + profiles[k].0 + "**: " + profiles[k].1;
    JoinContains(lines, "\n", k + 1);
  }

  /**
   * A path saved by `select_browser(..., save_default=True)` is what the next
   * resolution picks when the environment variable is unset, as long as the
   * path still exists and has no surrounding whitespace.
   */
  lemma SavedChoiceWins(path: string, home: string, exists_: string -> bool)
    requires |path| > 0 && !IsSpace(path[0]) && !IsSpace(path[|path| - 1]) && exists_(path)
    ensures ResolveBrowserProfile(None, Some(path), home, exists_) == Resolved(path)
  {
    assert Strip(path) == path;
  }

  // ---- formatters ----

  /** One tab line: the bare URL exactly when the title is empty. */
  function TabLine(t: LocalTab): (r: string)
    ensures r == "  - " + t.url <==> t.title == ""
    ensures StartsWith(r, "  - ")
  {
    if t.title != "" then "  - [" + t.title + "](" + t.url + ")" else "  - " + t.url
  }

  function DeviceHeading(d: LocalDevice): string {
    "\n## " + d.name + " (" + d.deviceType + ")"
  }

  /** The lines of one device: its heading, then its tabs or the "No open tabs" line. */
  function DeviceLines(d: LocalDevice): (r: seq<string>)
    ensures |r| > 0 && r[0] == DeviceHeading(d)
    ensures |d.tabs| == 0 ==> r == [DeviceHeading(d), "  No open tabs"]
    ensures |d.tabs| > 0 ==> |r| == |d.tabs| + 1 && forall j :: 0 <= j < |d.tabs| ==> r[j + 1] == TabLine(d.tabs[j])
  {
    [DeviceHeading(d)]
    + if |d.tabs| == 0 then ["  No open tabs"]
      else seq(|d.tabs|, j requires 0 <= j < |d.tabs| => TabLine(d.tabs[j]))
  }

  function DevicesLines(devices: seq<LocalDevice>): seq<string> {
    if |devices| == 0 then [] else DevicesLines(devices[..|devices| - 1]) + DeviceLines(devices[|devices| - 1])
  }

  /** Each device's lines sit, unbroken, inside the lines of the whole list. */
  lemma {:induction false} DevicesLinesHold(devices: seq<LocalDevice>, k: nat, j: nat)
    requires k < |devices| && j < |DeviceLines(devices[k])|
    ensures exists p :: 0 <= p < |DevicesLines(devices)| && DevicesLines(devices)[p] == DeviceLines(devices[k])[j]
  {
    var init := devices[..|devices| - 1];
    var before := DevicesLines(init);
    var all := DevicesLines(devices);
    assert all == before + DeviceLines(devices[|devices| - 1]);
    if k == |devices| - 1 {
      assert all[|before| + j] == DeviceLines(devices[k])[j];
    } else {
      assert init[k] == devices[k];
      DevicesLinesHold(init, k, j);
      var p :| 0 <= p < |before| && before[p] == DeviceLines(devices[k])[j];
      assert all[p] == before[p];
    }
  }

  lemma DevicesLinesStart(devices: seq<LocalDevice>)
    requires |devices| > 0
    ensures |DevicesLines(devices)| > 0 && DevicesLines(devices)[0] == DeviceHeading(devices[0])
    decreases |devices|
  {
    if |devices| > 1 {
      DevicesLinesStart(devices[..|devices| - 1]);
    }
  }

  /** `format_devices`. */
  function FormatDevices(devices: seq<LocalDevice>): (r: string)
    ensures |devices| == 0 <==> r == NoDevicesMessage
    ensures |devices| > 0 ==> StartsWith(r, DeviceHeading(devices[0]))
  {
    if |devices| == 0 then NoDevicesMessage
    else
      DevicesLinesStart(devices);
      JoinStartsWith(DevicesLines(devices), "\n");
      var r := Join(DevicesLines(devices), "\n");
      assert r[0] == DeviceHeading(devices[0])[0] == '\n';
      r
  }

  /** Every device heading and every tab line appears in the formatted text. */
  lemma DevicesListed(devices: seq<LocalDevice>, k: nat, j: nat)
    requires k < |devices| && j < |DeviceLines(devices[k])|
    ensures Contains(FormatDevices(devices), DeviceLines(devices[k])[j])
  {
    DevicesLinesHold(devices, k, j);
    var p :| 0 <= p < |DevicesLines(devices)| && DevicesLines(devices)[p] == DeviceLines(devices[k])[j];
    JoinContains(DevicesLines(devices), "\n", p);
  }

  /** The visit-count suffix of a history line: present exactly when the page was visited more than once. */
  function VisitsSuffix(count: int): (r: string)
    ensures r != "" <==> count > 1
    ensures count > 1 ==> EndsWith(r, " visits)")
  {
    if count > 1 then " (" + IntDecimal(count) + " visits)" else ""
  }

  function HistoryLine(e: LocalHistoryEntry, timeText: int -> string): string {
    "- [" + e.title + "](" + e.url + ") - " + timeText(e.visitTimeUs) + VisitsSuffix(e.visitCount)
  }

  /** A history line names the page, its url and its visit time, and ends with the visit-count suffix. */
  lemma HistoryLineShape(e: LocalHistoryEntry, timeText: int -> string)
    ensures StartsWith(HistoryLine(e, timeText), "- [" + e.title + "](" + e.url + ") - " + timeText(e.visitTimeUs))
    ensures EndsWith(HistoryLine(e, timeText), VisitsSuffix(e.visitCount))
  {
    var head := "- [" + e.title + "](" + e.url + ") - " + timeText(e.visitTimeUs);
    assert (head + VisitsSuffix(e.visitCount))[..|head|] == head;
  }

  /** The first line of `format_history`. */
  function HistoryHead(count: nat): string {
    "Found " + Decimal(count) + " history entries:\n"
  }

  function HistoryLines(history: seq<LocalHistoryEntry>, timeText: int -> string): (r: seq<string>)
    ensures |r| == |history| + 1
    ensures r[0] == HistoryHead(|history|)
  {
    [HistoryHead(|history|)] + seq(|history|, k requires 0 <= k < |history| => HistoryLine(history[k], timeText))
  }

  /** Line `k + 1` is the line of entry `k`. */
  lemma HistoryLineAt(history: seq<LocalHistoryEntry>, timeText: int -> string, k: nat)
    requires k < |history|
    ensures HistoryLines(history, timeText)[k + 1] == HistoryLine(history[k], timeText)
  {
  }

  /** `format_history`. */
  function FormatHistory(history: seq<LocalHistoryEntry>, timeText: int -> string): (r: string)
    ensures |history| == 0 <==> r == NoHistoryMessage
    ensures |history| > 0 ==> StartsWith(r, HistoryHead(|history|))
  {
    if |history| == 0 then NoHistoryMessage
    else
      JoinStartsWith(HistoryLines(history, timeText), "\n");
      Join(HistoryLines(history, timeText), "\n")
  }

  /** Every history entry has its line in the formatted text. */
  lemma HistoryListed(history: seq<LocalHistoryEntry>, timeText: int -> string, k: nat)
    requires k < |history|
    ensures Contains(FormatHistory(history, timeText), HistoryLine(history[k], timeText))
  {
    var lines := HistoryLines(history, timeText);
    HistoryLineAt(history, timeText, k);
    JoinContains(lines, "\n", k + 1);
  }

  const FolderPrefix := "- [folder] "

  function BookmarkLine(b: LocalBookmark): string {
    if b.isFolder then FolderPrefix + b.title + " (id: " + b.id + ")"
    else "- [" + b.title + "](" + b.url + ")"
  }

  /** A folder shows its id; a link shows its url. */
  lemma BookmarkLineShape(b: LocalBookmark)
    ensures b.isFolder ==> StartsWith(BookmarkLine(b), FolderPrefix) && EndsWith(BookmarkLine(b), "(id: " + b.id + ")")
    ensures !b.isFolder ==> EndsWith(BookmarkLine(b), "(" + b.url + ")")
  {
    if b.isFolder {
      var line := FolderPrefix + b.title + " (id: " + b.id + ")";
      assert line[..11] == FolderPrefix;
      assert line == FolderPrefix + b.title + " " + ("(id: " + b.id + ")");
    } else {
      var line := "- [" + b.title + "](" + b.url + ")";
      assert line == "- [" + b.title + "]" + ("(" + b.url + ")");
    }
  }

  /** The first line of `format_bookmarks`. */
  function BookmarksHead(count: nat): string {
    "Found " + Decimal(count) + " bookmarks:\n"
  }

  function BookmarkLines(bookmarks: seq<LocalBookmark>): (r: seq<string>)
    ensures |r| == |bookmarks| + 1
    ensures r[0] == BookmarksHead(|bookmarks|)
  {
    [BookmarksHead(|bookmarks|)] + seq(|bookmarks|, k requires 0 <= k < |bookmarks| => BookmarkLine(bookmarks[k]))
  }

  /** Line `k + 1` is the line of entry `k`. */
  lemma BookmarkLineAt(bookmarks: seq<LocalBookmark>, k: nat)
    requires k < |bookmarks|
    ensures BookmarkLines(bookmarks)[k + 1] == BookmarkLine(bookmarks[k])
  {
  }

  /** `format_bookmarks`. */
  function FormatBookmarks(bookmarks: seq<LocalBookmark>): (r: string)
    ensures |bookmarks| == 0 <==> r == NoBookmarksMessage
    ensures |bookmarks| > 0 ==> StartsWith(r, BookmarksHead(|bookmarks|))
  {
    if |bookmarks| == 0 then NoBookmarksMessage
    else
      JoinStartsWith(BookmarkLines(bookmarks), "\n");
      Join(BookmarkLines(bookmarks), "\n")
  }

  /** Every bookmark has its line in the formatted text. */
  lemma BookmarksListed(bookmarks: seq<LocalBookmark>, k: nat)
    requires k < |bookmarks|
    ensures Contains(FormatBookmarks(bookmarks), BookmarkLine(bookmarks[k]))
  {
    var lines := BookmarkLines(bookmarks);
    BookmarkLineAt(bookmarks, k);
    JoinContains(lines, "\n", k + 1);
  }

  // ---- the server's global state ----

  /** The module globals `_reader` and `_pending_profiles`, and the saved-profile file. */
  class Server {
    var reader: Option<string>                       // profile path of the open LocalReader
    var pendingProfiles: Option<seq<(string, string)>>
    var configText: Option<string>                   // contents of CONFIG_FILE, None while it does not exist

    constructor(savedConfig: Option<string>)
      ensures reader == None && pendingProfiles == None && configText == savedConfig
    {
      reader := None;
      pendingProfiles := None;
      configText := savedConfig;
    }

    /**
     * `get_reader`: the cached reader if there is one; otherwise resolve the
     * profile, opening a reader on success and recording the candidates when
     * there are several. A resolution error propagates.
     */
    method GetReader(env: Environment) returns (r: Result<Option<string>>)
      modifies this
      ensures configText == old(configText)
      ensures old(reader).Some? ==> r == Ok(old(reader)) && reader == old(reader) && pendingProfiles == old(pendingProfiles)
      ensures old(reader).None? ==>
                match ResolveBrowserProfile(env.envPath, old(configText), env.home, env.exists_)
                case Resolved(path) => r == Ok(Some(path)) && reader == Some(path) && pendingProfiles == old(pendingProfiles)
                case MultipleProfilesFound(ps) => r == Ok(None) && reader == None && pendingProfiles == Some(ps)
                case NoProfile(message) => r == Err(message) && reader == None && pendingProfiles == old(pendingProfiles)
    {
      if reader.Some? {
        return Ok(reader);
      }
      match ResolveBrowserProfile(env.envPath, configText, env.home, env.exists_)
      case Resolved(path) =>
        reader := Some(path);
        r := Ok(reader);
      case MultipleProfilesFound(ps) =>
        pendingProfiles := Some(ps);
        r := Ok(None);
      case NoProfile(message) =>
        r := Err(message);
    }

    /**
     * `select_browser`: look the lower-cased name up among the pending
     * candidates (or a fresh scan); an unknown name changes nothing, a known
     * one opens the reader, clears the pending candidates and, when asked,
     * saves the path.
     */
    method SelectBrowser(env: Environment, browser: string, saveDefault: bool) returns (message: string)
      modifies this
      ensures var profiles := Candidates(old(pendingProfiles), env);
              Lookup(profiles, Lower(browser)).None? ==>
                message == UnknownBrowserMessage(browser, profiles)
                && reader == old(reader) && pendingProfiles == old(pendingProfiles) && configText == old(configText)
      ensures var profiles := Candidates(old(pendingProfiles), env);
              Lookup(profiles, Lower(browser)).Some? ==>
                var path := Lookup(profiles, Lower(browser)).value;
                message == SelectedMessage(browser, path, saveDefault, env.home)
                && reader == Some(path) && pendingProfiles == None
                && configText == (if saveDefault then Some(path) else old(configText))
    {
      var profiles: seq<(string, string)>;
      if pendingProfiles.Some? && |pendingProfiles.value| > 0 {
        profiles := pendingProfiles.value;
      } else {
        profiles := FindAllBrowserProfiles(env.home, env.exists_);
      }
      var key := Lower(browser);
      var path := Lookup(profiles, key);
      if path.None? {
        return UnknownBrowserMessage(browser, profiles);
      }
      if saveDefault {
        configText := Some(path.value);
      }
      reader := Some(path.value);
      pendingProfiles := None;
      message := SelectedMessage(browser, path.value, saveDefault, env.home);
    }

    /**
     * `call_tool`: the selection tool needs no reader; every other tool gets
     * the selection prompt while candidates are pending, and otherwise runs
     * against the reader's profile. An exception is an `Err`.
     */
    method CallTool(env: Environment, name: string, args: ToolArguments) returns (r: Result<string>)
      modifies this
      ensures name != SelectTool && old(reader).None? ==>
                match ResolveBrowserProfile(env.envPath, old(configText), env.home, env.exists_)
                case MultipleProfilesFound(ps) => r == Ok(SelectionPrompt(ps)) && reader == None
                case NoProfile(message) => r == Err(message) && reader == None
                case Resolved(path) => reader == Some(path) && r == Ok(ToolText(env, path, name, args))
      ensures name != SelectTool && old(reader).Some? ==> r == Ok(ToolText(env, old(reader).value, name, args))
      ensures name != SelectTool ==> configText == old(configText)
      ensures name != SelectTool ==>
                pendingProfiles == (match ResolveBrowserProfile(env.envPath, old(configText), env.home, env.exists_)
                                    case MultipleProfilesFound(ps) => if old(reader).None? then Some(ps) else old(pendingProfiles)
                                    case _ => old(pendingProfiles))
      ensures name == SelectTool ==>
                var browser, saveDefault := Or(args.browser, ""), Or(args.saveDefault, false);
                var profiles := Candidates(old(pendingProfiles), env);
                match Lookup(profiles, Lower(browser))
                case None =>
                  r == Ok(UnknownBrowserMessage(browser, profiles))
                  && reader == old(reader) && pendingProfiles == old(pendingProfiles) && configText == old(configText)
                case Some(path) =>
                  r == Ok(SelectedMessage(browser, path, saveDefault, env.home))
                  && reader == Some(path) && pendingProfiles == None
                  && configText == (if saveDefault then Some(path) else old(configText))
    {
      if name == SelectTool {
        var browser := Or(args.browser, "");
        var saveDefault := Or(args.saveDefault, false);
        var message := SelectBrowser(env, browser, saveDefault);
        return Ok(message);
      }
      ghost var resolution := ResolveBrowserProfile(env.envPath, configText, env.home, env.exists_);
      var current := GetReader(env);
      assert old(reader).None? && resolution.MultipleProfilesFound? ==>
               current == Ok(None) && pendingProfiles == Some(resolution.profiles) && |resolution.profiles| > 1;
      if current.Err? {
        return Err(current.message);
      }
      if current.value.None? && pendingProfiles.Some? && |pendingProfiles.value| > 0 {
        return Ok(SelectionPrompt(pendingProfiles.value));
      }
      if current.value.None? {
        return Ok(NoReaderMessage);
      }
      var text := RunTool(env, current.value.value, name, args);
      r := Ok(text);
    }
  }

  function Or<T>(v: Option<T>, default: T): T {
    if v.Some? then v.value else default
  }

  /** The text a data tool returns for the profile at `path`. */
  function ToolText(env: Environment, path: string, name: string, args: ToolArguments): string {
    var data := env.data(path);
    if name == TabsTool then FormatDevices(OpenTabs(data.deviceInfos, data.sessions))
    else if name == HistoryTool then
      FormatHistory(EntriesOf(HistoryRows(data.historyUrls, args.query, Or(args.daysBack, 0), env.nowUnixUs,
                                          Or(args.limit, 100))), env.timeText)
    else if name == BookmarksTool then FormatBookmarks(WalkRoots(data.bookmarkRoots, args.folder))
    else if name == SearchTool then FormatBookmarks(SearchBookmarks(WalkRoots(data.bookmarkRoots, None), Or(args.query, "")))
    else "Unknown tool: " + name
  }

  /** The data-tool branches of `call_tool`, run through the reader's methods. */
  method RunTool(env: Environment, path: string, name: string, args: ToolArguments) returns (text: string)
    ensures text == ToolText(env, path, name, args)
  {
    var data := env.data(path);
    if name == TabsTool {
      var devices := GetTabs(data.deviceInfos, data.sessions);
      text := FormatDevices(devices);
    } else if name == HistoryTool {
      var history := GetHistory(data.historyUrls, args.query, Or(args.limit, 100), Or(args.daysBack, 0), env.nowUnixUs);
      text := FormatHistory(history, env.timeText);
    } else if name == BookmarksTool {
      var bookmarks := GetBookmarks(data.bookmarkRoots, args.folder);
      text := FormatBookmarks(bookmarks);
    } else if name == SearchTool {
      var all := GetBookmarks(data.bookmarkRoots, None);
      text := FormatBookmarks(SearchBookmarks(all, Or(args.query, "")));
    } else {
      text := "Unknown tool: " + name;
    }
  }

  /**
   * Every data tool, called while several browsers are detected and none is
   * chosen, answers with the selection prompt listing each candidate.
   */
  lemma PendingGivesPrompt(env: Environment, configText: Option<string>, k: nat)
    requires (env.envPath.None? || env.envPath.value == "") && LoadSavedProfile(configText, env.exists_).None?
    requires |Profiles(BrowserPaths(env.home), env.exists_)| > 1
    requires k < |Profiles(BrowserPaths(env.home), env.exists_)|
    ensures var found := Profiles(BrowserPaths(env.home), env.exists_);
            ResolveBrowserProfile(env.envPath, configText, env.home, env.exists_) == MultipleProfilesFound(found)
            && Contains(SelectionPrompt(found), "  - **" + found[k].0 + "**: " + found[k].1)
  {
    PromptListsCandidates(Profiles(BrowserPaths(env.home), env.exists_), k);
  }
}
