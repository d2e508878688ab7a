/**
 * Where the earlier Clarvis server keeps its sessions
 * (clarvis-old/server/persistence.js): one JSON file per session,
 * `<directory>/.clarvis/session-<id>.json`. The file system is a class with
 * the directories' listings, the files' contents and the paths whose reads
 * fail for a reason other than a missing file; a file holds either a
 * session record or text that does not parse. `path.join` is plain
 * concatenation with '/', and the process directory is a parameter.
 */
module ClarvisOldPersistence {
  import opened Util

  const ClarvisDir := ".clarvis"
  const SessionPrefix := "session-"
  const JsonSuffix := ".json"
  const ParseError := "SyntaxError"

  datatype Status = Idle | Running | Failed   // 'idle', 'running', 'error'

  datatype Message = Message(role: string, content: string, timestamp: int)

  datatype QueuedPrompt = QueuedPrompt(id: string, prompt: string, queuedAt: int)

  datatype Config = Config(
    workingDirectory: string, permissionMode: string, model: string,
    systemPrompt: Option<string>, permissionTimeout: Option<int>)

  /**
   * A session as the server holds it. A session restored from disk has no
   * `promptQueue` (None) until a prompt is queued; `running` says that an
   * `abortController` is set.
   */
  datatype Session = Session(
    id: string, name: string, status: Status, createdAt: int, lastActivity: int,
    messageCount: int, config: Config, messages: seq<Message>,
    promptQueue: Option<seq<QueuedPrompt>>, running: bool, archived: bool,
    agentSessionId: Option<string>, lastError: Option<string>)

  /** The record a session file holds. */
  datatype Saved = Saved(
    id: string, name: string, status: Status, createdAt: int, lastActivity: int,
    messageCount: int, config: Config, messages: seq<Message>,
    agentSessionId: Option<string>, archived: bool)

  datatype Stored = Record(saved: Saved) | Unparsable

  function LastActivity(s: Saved): int {
    s.lastActivity
  }

  // ---- paths ----

  /** `getStoragePath`: the `.clarvis` directory of the working directory, or of the process directory. */
  function StoragePath(workingDirectory: string, cwd: string): (r: string)
    ensures EndsWith(r, "/" + ClarvisDir)
  {
    var r := (if workingDirectory != "" then workingDirectory else cwd) + "/" + ClarvisDir;
    assert r[|r| - |"/" + ClarvisDir|..] == "/" + ClarvisDir;
    r
  }

  function FileName(id: string): string {
    SessionPrefix + id + JsonSuffix
  }

  /** The names `loadAllSessions` reads: 'session-' at the front and '.json' at the end. */
  predicate IsSessionFile(name: string) {
    StartsWith(name, SessionPrefix) && EndsWith(name, JsonSuffix)
  }

  /** Every session's file name passes the filter, and the id can be read back from it. */
  lemma FileNameOfId(id: string)
    ensures IsSessionFile(FileName(id))
    ensures FileName(id)[|SessionPrefix|..|FileName(id)| - |JsonSuffix|] == id
  {
    var n := FileName(id);
    assert n[..|SessionPrefix|] == SessionPrefix;
    assert n[|n| - |JsonSuffix|..] == JsonSuffix;
  }

  /** Distinct ids are stored in distinct files. */
  lemma FileNameInjective(a: string, b: string)
    requires FileName(a) == FileName(b)
    ensures a == b
  {
    FileNameOfId(a);
    FileNameOfId(b);
  }

  function SessionPath(workingDirectory: string, cwd: string, id: string): string {
    StoragePath(workingDirectory, cwd) + "/" + FileName(id)
  }

  // ---- the record written ----

  /**
   * The record `saveSession` writes: a running session is saved as idle,
   * and a session without a name takes the last segment of its directory.
   * It also keeps `archived` (see the findings: the code as written drops it).
   */
  function Serialized(s: Session): (r: Saved)
    ensures r.status != Running && (s.status != Running ==> r.status == s.status)
    ensures s.name != "" ==> r.name == s.name
    ensures r.archived == s.archived
  {
    Saved(s.id, if s.name != "" then s.name else Basename(s.config.workingDirectory),
          if s.status == Running then Idle else s.status,
          s.createdAt, s.lastActivity, s.messageCount, s.config, s.messages,
          s.agentSessionId, s.archived)
  }

  /** The record as the code writes it: the object literal has no `archived` field. */
  function SerializedAsWritten(s: Session): (r: Saved)
    ensures !r.archived
  {
    Serialized(s).(archived := false)
  }

  /** A saved record taken back into the server (`{...saved, abortController: null}`). */
  function Restored(saved: Saved): (r: Session)
    ensures r.id == saved.id && r.status == saved.status && r.archived == saved.archived
    ensures r.promptQueue.None? && !r.running
  {
    Session(saved.id, saved.name, saved.status, saved.createdAt, saved.lastActivity,
            saved.messageCount, saved.config, saved.messages, None, false, saved.archived,
            saved.agentSessionId, None)
  }

  /** Saving a restored record writes that record again: nothing is lost after the first save. */
  lemma SaveRestoreSave(s: Session)
    ensures Serialized(Restored(Serialized(s))) == Serialized(s)
    ensures Restored(Serialized(s)).archived == s.archived
  {
  }

  /** As written, an archived session comes back from disk unarchived. */
  lemma ArchiveLostAsWritten(s: Session)
    requires s.archived
    ensures !Restored(SerializedAsWritten(s)).archived
  {
  }

  // ---- the disk ----

  class Disk {
    var dirs: map<string, seq<string>>      // each directory's entries, in `readdir` order
    var files: map<string, Stored>
    var failing: map<string, string>        // paths whose access fails, with the error code

    constructor()
      ensures dirs == map[] && files == map[] && failing == map[]
    {
      dirs := map[];
      files := map[];
      failing := map[];
    }

    function Entries(dir: string): (r: seq<string>)
      reads this
      ensures dir !in dirs ==> r == []
    {
      if dir in dirs then dirs[dir] else []
    }

    /**
     * `saveSession`: the storage directory is created when missing, and the
     * session's record is written to its file; the path is returned.
     */
    method SaveSession(s: Session, cwd: string) returns (path: string)
      modifies this
      ensures path == SessionPath(s.config.workingDirectory, cwd, s.id)
      ensures files == old(files)[path := Record(Serialized(s))] && failing == old(failing)
      ensures var dir := StoragePath(s.config.workingDirectory, cwd);
              dirs == old(dirs)[dir := SetAdd(old(Entries(dir)), FileName(s.id))]
    {
      var dir := StoragePath(s.config.workingDirectory, cwd);
      dirs := dirs[dir := SetAdd(Entries(dir), FileName(s.id))];
      path := dir + "/" + FileName(s.id);
      files := files[path := Record(Serialized(s))];
    }

    /** `loadSession`: a missing file gives null, a failing read or a record that does not parse throws. */
    function LoadSession(workingDirectory: string, cwd: string, id: string): (r: Result<Option<Saved>>)
      reads this
      ensures var path := SessionPath(workingDirectory, cwd, id);
              && (r == Ok(None) <==> path !in failing && path !in files)
              && (r.Ok? && r.value.Some? <==> path !in failing && path in files && files[path].Record?)
              && (r.Ok? && r.value.Some? ==> files[path] == Record(r.value.value))
    {
      var path := SessionPath(workingDirectory, cwd, id);
      if path in failing then Err(failing[path])
      else if path !in files then Ok(None)
      else match files[path]
        case Record(saved) => Ok(Some(saved))
        case Unparsable => Err(ParseError)
    }

    /** `deleteSessionFile`: true when a file was removed, false when there was none; a failing removal throws. */
    method DeleteSessionFile(workingDirectory: string, cwd: string, id: string) returns (r: Result<bool>)
      modifies this
      ensures var path := SessionPath(workingDirectory, cwd, id);
              var dir := StoragePath(workingDirectory, cwd);
              && failing == old(failing)
              && (path in old(failing) ==> r == Err(old(failing)[path]) && files == old(files) && dirs == old(dirs))
              && (path !in old(failing) && path !in old(files) ==> r == Ok(false) && files == old(files) && dirs == old(dirs))
              && (path !in old(failing) && path in old(files) ==>
                    r == Ok(true) && files == old(files) - {path}
                    && dirs == old(dirs)[dir := Without(old(Entries(dir)), FileName(id))])
    {
      var dir := StoragePath(workingDirectory, cwd);
      var path := dir + "/" + FileName(id);
      if path in failing {
        return Err(failing[path]);
      }
      if path !in files {
        return Ok(false);
      }
      files := files - {path};
      dirs := dirs[dir := Without(Entries(dir), FileName(id))];
      r := Ok(true);
    }

    /** The records of the readable session files among `names`, in listing order. */
    function Readable(dir: string, names: seq<string>): (r: seq<Saved>)
      reads this
      ensures |r| <= |names|
    {
      if |names| == 0 then []
      else
        var prev := Readable(dir, names[..|names| - 1]);
        var name := names[|names| - 1];
        var path := dir + "/" + name;
        if IsSessionFile(name) && path !in failing && path in files && files[path].Record?
        then prev + [files[path].saved] else prev
    }

    /** Every record `Readable` yields comes from a readable session file of the listing. */
    lemma {:induction false} ReadableFromFiles(dir: string, names: seq<string>, k: nat)
      requires k < |Readable(dir, names)|
      ensures exists name :: name in names && IsSessionFile(name) && dir + "/" + name !in failing
                             && dir + "/" + name in files && files[dir + "/" + name] == Record(Readable(dir, names)[k])
    {
      var prev := Readable(dir, names[..|names| - 1]);
      var name := names[|names| - 1];
      if k < |prev| {
        ReadableFromFiles(dir, names[..|names| - 1], k);
        var n :| n in names[..|names| - 1] && IsSessionFile(n) && dir + "/" + n !in failing
                 && dir + "/" + n in files && files[dir + "/" + n] == Record(prev[k]);
        assert n in names;
      } else {
        assert name in names;
      }
    }

    /** The sessions stored under a working directory, in listing order. */
    function InDirectory(workingDirectory: string, cwd: string): (r: seq<Saved>)
      reads this
    {
      var dir := StoragePath(workingDirectory, cwd);
      if dir in dirs then Readable(dir, dirs[dir]) else []
    }

    /**
     * `loadAllSessions`: no directory gives []; otherwise the session files
     * are read in listing order, the unreadable ones skipped, and the
     * records sorted by last activity, newest first.
     */
    method LoadAllSessions(workingDirectory: string, cwd: string) returns (r: seq<Saved>)
      ensures r == SortDesc(InDirectory(workingDirectory, cwd), LastActivity)
      ensures SortedDesc(r, LastActivity) && multiset(r) == multiset(InDirectory(workingDirectory, cwd))
    {
      var dir := StoragePath(workingDirectory, cwd);
      if dir !in dirs {
        return [];
      }
      var names := dirs[dir];
      var loaded: seq<Saved> := [];
      for i := 0 to |names|
        invariant loaded == Readable(dir, names[..i])
      {
        assert names[..i + 1][..i] == names[..i];
        var name := names[i];
        var path := dir + "/" + name;
        if IsSessionFile(name) && path !in failing && path in files && files[path].Record? {
          loaded := loaded + [files[path].saved];
        }
      }
      assert names[..|names|] == names;
      r := SortDesc(loaded, LastActivity);
    }

    /** The sessions of several working directories, directory by directory. */
    function InDirectories(directories: seq<string>, cwd: string): (r: seq<Saved>)
      reads this
    {
      if |directories| == 0 then []
      else InDirectories(directories[..|directories| - 1], cwd) + InDirectory(directories[|directories| - 1], cwd)
    }

    /** What the loop collects: each directory's sessions as `loadAllSessions` returns them, sorted. */
    function ByDirectory(directories: seq<string>, cwd: string): (r: seq<Saved>)
      reads this
    {
      if |directories| == 0 then []
      else ByDirectory(directories[..|directories| - 1], cwd)
           + SortDesc(InDirectory(directories[|directories| - 1], cwd), LastActivity)
    }

    /** Sorting each directory first changes nothing in the order of the sessions of one last activity. */
    lemma {:induction false} ByDirectoryKeys(directories: seq<string>, cwd: string, k: int)
      ensures WithKey(ByDirectory(directories, cwd), LastActivity, k)
              == WithKey(InDirectories(directories, cwd), LastActivity, k)
      decreases |directories|
    {
      if |directories| > 0 {
        var init, last := directories[..|directories| - 1], directories[|directories| - 1];
        ByDirectoryKeys(init, cwd, k);
        WithKeyAppend(ByDirectory(init, cwd), SortDesc(InDirectory(last, cwd), LastActivity), LastActivity, k);
        WithKeyAppend(InDirectories(init, cwd), InDirectory(last, cwd), LastActivity, k);
        SortDescStable(InDirectory(last, cwd), LastActivity, k);
      }
    }

    /**
     * `loadSessionsFromMultipleDirectories`: every directory's sessions,
     * newest first; the sort being stable, ties keep the order of the
     * directories and, inside one, the listing order.
     */
    method LoadFromDirectories(directories: seq<string>, cwd: string) returns (r: seq<Saved>)
      ensures r == SortDesc(InDirectories(directories, cwd), LastActivity)
      ensures SortedDesc(r, LastActivity) && multiset(r) == multiset(InDirectories(directories, cwd))
    {
      var all: seq<Saved> := [];
      for i := 0 to |directories|
        invariant all == ByDirectory(directories[..i], cwd)
      {
        assert directories[..i + 1][..i] == directories[..i];
        var sessions := LoadAllSessions(directories[i], cwd);
        all := all + sessions;
      }
      assert directories[..|directories|] == directories;
      r := SortDesc(all, LastActivity);
      ghost var expected := SortDesc(InDirectories(directories, cwd), LastActivity);
      forall k
        ensures WithKey(r, LastActivity, k) == WithKey(expected, LastActivity, k)
      {
        SortDescStable(all, LastActivity, k);
        ByDirectoryKeys(directories, cwd, k);
        SortDescStable(InDirectories(directories, cwd), LastActivity, k);
      }
      SortedDescUnique(r, expected, LastActivity);
    }
  }

  /** A saved session loads back as the record written, and is the only one its fresh directory lists. */
  method SaveThenLoad(s: Session, cwd: string) returns (loaded: Result<Option<Saved>>, listed: seq<Saved>)
    ensures loaded == Ok(Some(Serialized(s)))
    ensures listed == [Serialized(s)]
  {
    var disk := new Disk();
    var _ := disk.SaveSession(s, cwd);
    loaded := disk.LoadSession(s.config.workingDirectory, cwd, s.id);
    FileNameOfId(s.id);
    var dir := StoragePath(s.config.workingDirectory, cwd);
    assert disk.dirs[dir] == [FileName(s.id)];
    assert [FileName(s.id)][..0] == [];
    listed := disk.LoadAllSessions(s.config.workingDirectory, cwd);
  }

  /** A file is removed once: the second removal finds nothing and loading gives null. */
  method DeleteTwice(s: Session, cwd: string) returns (first: Result<bool>, second: Result<bool>, loaded: Result<Option<Saved>>)
    ensures first == Ok(true) && second == Ok(false) && loaded == Ok(None)
  {
    var disk := new Disk();
    var _ := disk.SaveSession(s, cwd);
    first := disk.DeleteSessionFile(s.config.workingDirectory, cwd, s.id);
    second := disk.DeleteSessionFile(s.config.workingDirectory, cwd, s.id);
    loaded := disk.LoadSession(s.config.workingDirectory, cwd, s.id);
  }
}
