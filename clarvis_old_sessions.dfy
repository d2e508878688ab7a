/**
 * The earlier Clarvis server's session store
 * (clarvis-old/server/sessions.js): a Map from session id to session, each
 * with a FIFO queue of prompts waiting for the running one, plus the text
 * helpers that build previews and the merged list of slash commands. Ids
 * (`randomUUID`), the clock (`Date.now`) and the process directory are
 * parameters; every `saveSession` call is recorded in the `saved` log, and
 * persistence itself is ClarvisOldPersistence.
 */
module ClarvisOldSessions {
  import opened Util
  import M = JsMap
  import opened P = ClarvisOldPersistence

  const PreviewLength := 100
  const Ellipsis := "..."
  const ForkSuffix := " (fork)"
  const DefaultMode := "default"
  const DefaultModel := "sonnet"
  const NotFoundHead := "Session "
  const NotFoundTail := " not found"

  function NotFound(id: string): string {
    NotFoundHead + id + NotFoundTail
  }

  // ---- truncatePreview ----

  /** Text in which white space is only ' ', never two in a row. */
  predicate Collapsed(s: string) {
    (forall i :: 0 <= i < |s| ==> (JsSpace(s[i]) ==> s[i] == ' '))
    && (forall i :: 0 <= i < |s| - 1 ==> !(s[i] == ' ' && s[i + 1] == ' '))
  }

  /** `s.replace(/\s+/g, ' ')`: every run of white space becomes one space. */
  function CollapseSpaces(s: string): (r: string)
    ensures |r| <= |s| && (|r| == 0 <==> |s| == 0)
    ensures |s| > 0 ==> r[0] == (if JsSpace(s[0]) then ' ' else s[0])
    ensures Collapsed(r)
    decreases |s|
  {
    if |s| == 0 then ""
    else if JsSpace(s[0]) then
      var rest := TrimJsStart(s);
      " " + CollapseSpaces(rest)
    else [s[0]] + CollapseSpaces(s[1..])
  }

  /** Collapsed text is left as it is. */
  lemma {:induction false} CollapseCollapsed(s: string)
    requires Collapsed(s)
    ensures CollapseSpaces(s) == s
    decreases |s|
  {
    if |s| > 0 {
      assert Collapsed(s[1..]);
      if JsSpace(s[0]) {
        assert TrimJsStart(s) == s[1..] by {
          assert |s| > 1 ==> !JsSpace(s[1]);
        }
      }
      CollapseCollapsed(s[1..]);
    }
  }

  /** The cleaned text of a preview: runs of white space collapsed, both ends trimmed. */
  function Cleaned(s: string): (r: string)
    ensures Collapsed(r) && |r| <= |s|
    ensures |r| > 0 ==> r[0] != ' ' && r[|r| - 1] != ' '
  {
    var c := CollapseSpaces(s);
    TrimCollapsed(c);
    TrimJs(c)
  }

  /** Trimming collapsed text leaves it collapsed. */
  lemma {:induction false} TrimCollapsed(c: string)
    requires Collapsed(c)
    ensures Collapsed(TrimJs(c))
  {
    var r := TrimJs(c);
    var lo := |c| - |TrimJsStart(c)|;
    TrimJsSlice(c);
    forall i | 0 <= i < |r|
      ensures JsSpace(r[i]) ==> r[i] == ' '
    {
      assert r[i] == c[lo + i];
    }
    forall i | 0 <= i < |r| - 1
      ensures !(r[i] == ' ' && r[i + 1] == ' ')
    {
      assert r[i] == c[lo + i] && r[i + 1] == c[lo + i + 1];
    }
  }

  /** Cleaning is idempotent. */
  lemma {:induction false} CleanedIdempotent(s: string)
    ensures Cleaned(Cleaned(s)) == Cleaned(s)
  {
    var c := Cleaned(s);
    CollapseCollapsed(c);
  }

  /**
   * `truncatePreview`: a value that is not a string gives ''; otherwise the
   * cleaned text, cut to `maxLength` characters and marked with '...' when
   * it is longer.
   */
  function TruncatePreview(content: Option<string>, maxLength: nat): (r: string)
    ensures content.None? ==> r == ""
    ensures |r| <= maxLength + |Ellipsis|
    ensures forall i :: 0 <= i < |r| ==> (JsSpace(r[i]) ==> r[i] == ' ')
    ensures content.Some? && |Cleaned(content.value)| <= maxLength ==> r == Cleaned(content.value)
    ensures content.Some? && |Cleaned(content.value)| > maxLength ==>
              r == Cleaned(content.value)[..maxLength] + Ellipsis
  {
    match content
    case None => ""
    case Some(text) =>
      var c := Cleaned(text);
      if |c| <= maxLength then c else c[..maxLength] + Ellipsis
  }

  /** A preview short enough to be left whole is its own preview. */
  lemma PreviewStable(text: string, maxLength: nat)
    requires |Cleaned(text)| <= maxLength
    ensures TruncatePreview(Some(TruncatePreview(Some(text), maxLength)), maxLength) == TruncatePreview(Some(text), maxLength)
  {
    CleanedIdempotent(text);
  }

  // ---- extractTextContent ----

  /** `message.content` as the SDK sends it. `Missing` stands for every falsy value, `Other` for a value `String()` turns into `shown`. */
  datatype Content = Blocks(blocks: seq<Block>) | Text(text: string) | Missing | Other(shown: string)

  /** `extractTextContent` */
  function ExtractTextContent(content: Content): (r: string)
    ensures content.Missing? ==> r == ""
    ensures content.Text? ==> r == content.text
  {
    match content
    case Missing => ""
    case Text(text) => text
    case Other(shown) => shown
    case Blocks(blocks) => Join(TextsOf(blocks), "\n")
  }

  lemma {:induction false} TextInTexts(blocks: seq<Block>, k: nat)
    requires k < |blocks| && blocks[k].kind == "text"
    ensures blocks[k].text in TextsOf(blocks)
  {
    if k > 0 {
      TextInTexts(blocks[1..], k - 1);
    }
  }

  /** The text of every text block appears in the extracted text. */
  lemma ExtractedHasEveryText(blocks: seq<Block>, k: nat)
    requires k < |blocks| && blocks[k].kind == "text"
    ensures Contains(ExtractTextContent(Blocks(blocks)), blocks[k].text)
  {
    TextInTexts(blocks, k);
    var texts := TextsOf(blocks);
    var j :| 0 <= j < |texts| && texts[j] == blocks[k].text;
    JoinContains(texts, "\n", j);
  }

  /** Blocks with no text block extract to ''. */
  lemma ExtractedNoText(blocks: seq<Block>)
    requires forall i :: 0 <= i < |blocks| ==> blocks[i].kind != "text"
    ensures ExtractTextContent(Blocks(blocks)) == ""
  {
    NoTexts(blocks);
  }

  // ---- sessions ----

  /** The options `createSession` takes; "" stands for a missing string. */
  datatype NewSession = NewSession(
    name: string, workingDirectory: string, permissionMode: string, model: string,
    systemPrompt: Option<string>, permissionTimeout: Option<int>)

  function Or(value: string, fallback: string): (r: string)
    ensures value != "" ==> r == value
    ensures value == "" ==> r == fallback
  {
    if value != "" then value else fallback
  }

  /** The fields `getAllSessions` lists for a session. */
  datatype Summary = Summary(
    id: string, name: string, status: Status, workingDirectory: string, createdAt: int,
    lastActivity: int, messageCount: int, queueLength: nat, archived: bool,
    lastMessagePreview: Option<string>)

  function QueueOf(s: Session): (r: seq<QueuedPrompt>)
    ensures s.promptQueue.None? ==> r == []
  {
    if s.promptQueue.Some? then s.promptQueue.value else []
  }

  /** A session's summary: the preview is the last message's content, cleaned and cut to 100 characters. */
  function Summarize(s: Session): (r: Summary)
    ensures r.queueLength == |QueueOf(s)|
    ensures r.lastMessagePreview.Some? <==> |s.messages| > 0 && s.messages[|s.messages| - 1].content != ""
    ensures r.lastMessagePreview.Some? ==> |r.lastMessagePreview.value| <= PreviewLength + |Ellipsis|
  {
    var preview :=
      if |s.messages| > 0 && s.messages[|s.messages| - 1].content != ""
      then Some(TruncatePreview(Some(s.messages[|s.messages| - 1].content), PreviewLength))
      else None;
    Summary(s.id, s.name, s.status, s.config.workingDirectory, s.createdAt, s.lastActivity,
            s.messageCount, |QueueOf(s)|, s.archived, preview)
  }

  /** The session `createSession` builds. */
  function Created(c: NewSession, id: string, now: int, cwd: string): (r: Session)
    ensures r.id == id && r.status == Idle && r.messages == [] && r.promptQueue == Some([])
    ensures r.config.workingDirectory == Or(c.workingDirectory, cwd)
    ensures c.name == "" ==> r.name == Basename(r.config.workingDirectory)
    ensures c.model == "" ==> r.config.model == DefaultModel
  {
    var wd := Or(c.workingDirectory, cwd);
    Session(id, Or(c.name, Basename(wd)), Idle, now, now, 0,
            Config(wd, Or(c.permissionMode, DefaultMode), Or(c.model, DefaultModel), c.systemPrompt, c.permissionTimeout),
            [], Some([]), false, false, None, None)
  }

  /** The copy `forkSession` makes: same configuration and messages, an empty queue, not archived. */
  function Forked(original: Session, newId: string, now: int): (r: Session)
    ensures r.id == newId && r.name == original.name + ForkSuffix && r.status == Idle
    ensures r.config == original.config && r.messages == original.messages
    ensures r.messageCount == original.messageCount
    ensures r.promptQueue == Some([]) && !r.running && !r.archived
  {
    Session(newId, original.name + ForkSuffix, Idle, now, now, original.messageCount,
            original.config, original.messages, Some([]), false, false, None, None)
  }

  /** A session under the name `renameSession` gives it: the trimmed name, unless that is ''. */
  function Renamed(s: Session, newName: string): (r: Session)
    ensures TrimJs(newName) != "" ==> r.name == TrimJs(newName)
    ensures TrimJs(newName) == "" ==> r == s
    ensures r.(name := s.name) == s
  {
    var trimmed := TrimJs(newName);
    s.(name := if trimmed != "" then trimmed else s.name)
  }

  // ---- the prompt queue ----

  /** `findIndex(p => p.id === promptId)` */
  function FindPrompt(queue: seq<QueuedPrompt>, promptId: string): (r: Option<nat>)
    ensures r.None? <==> forall i :: 0 <= i < |queue| ==> queue[i].id != promptId
    ensures r.Some? ==> r.value < |queue| && queue[r.value].id == promptId
                        && forall i :: 0 <= i < r.value ==> queue[i].id != promptId
  {
    if |queue| == 0 then None
    else if queue[0].id == promptId then Some(0)
    else match FindPrompt(queue[1..], promptId)
      case None => None
      case Some(k) => Some(k + 1)
  }

  /** `splice(k, 1)` */
  function RemoveAt<T>(s: seq<T>, k: nat): (r: seq<T>)
    requires k < |s|
    ensures |r| == |s| - 1
    ensures multiset(r) + multiset{s[k]} == multiset(s)
  {
    assert s == s[..k] + [s[k]] + s[k + 1..];
    s[..k] + s[k + 1..]
  }

  /** Prompt ids used once each. */
  predicate UniqueIds(queue: seq<QueuedPrompt>) {
    forall i, j :: 0 <= i < j < |queue| ==> queue[i].id != queue[j].id
  }

  /** Cancelling removes exactly the matching entry: when ids are unique, no entry with that id is left. */
  lemma CancelRemovesIt(queue: seq<QueuedPrompt>, promptId: string)
    requires UniqueIds(queue) && FindPrompt(queue, promptId).Some?
    ensures var r := RemoveAt(queue, FindPrompt(queue, promptId).value);
            && UniqueIds(r)
            && forall i :: 0 <= i < |r| ==> r[i].id != promptId
  {
    var k := FindPrompt(queue, promptId).value;
    var r := RemoveAt(queue, k);
    forall i | 0 <= i < |r|
      ensures r[i] == queue[Skip(i, k)]
    {
      RemoveAtIndex(queue, k, i);
    }
    forall i, j | 0 <= i < j < |r|
      ensures r[i].id != r[j].id
    {
      assert Skip(i, k) < Skip(j, k);
    }
    forall i | 0 <= i < |r|
      ensures r[i].id != promptId
    {
      assert Skip(i, k) != k;
    }
  }

  /** The position in the original queue of the entry at `i` once the one at `k` is removed. */
  function Skip(i: nat, k: nat): (r: nat)
    ensures r != k && (i < k ==> r == i) && (i >= k ==> r == i + 1)
  {
    if i < k then i else i + 1
  }

  lemma RemoveAtIndex<T>(s: seq<T>, k: nat, i: nat)
    requires k < |s| && i < |s| - 1
    ensures RemoveAt(s, k)[i] == s[Skip(i, k)]
  {
  }

  // ---- getAvailableCommands ----

  datatype Command = Command(name: string, description: string, argumentHint: string)

  function CommandName(c: Command): string {
    c.name
  }

  // the built-in commands' descriptions
  const ClearHelp := "Clear conversation history and start fresh"
  const HelpHelp := "Show available commands and help"
  const ModelHelp := "Change the current model (e.g., /model sonnet)"
  const BugHelp := "Report a bug"
  const DoctorHelp := "Check Claude Code health and configuration"
  const LoginHelp := "Log in to your Anthropic account"
  const LogoutHelp := "Log out of your account"
  const MemoryHelp := "View and manage CLAUDE.md memory files"
  const PermissionsHelp := "View and manage tool permissions"
  const StatusHelp := "Show current session status and info"
  const VimHelp := "Toggle vim keybindings mode"
  const TerminalSetupHelp := "Configure terminal integration (Shift+Enter)"
  const ConfigHelp := "Open or edit configuration"
  const AddDirHelp := "Add a directory to the allowed list"
  const McpHelp := "View MCP server status and configuration"

  /** The built-in CLI commands, listed first. */
  const BuiltInCommands: seq<Command> := [
    Command("clear", ClearHelp, ""),
    Command("help", HelpHelp, ""),
    Command("model", ModelHelp, "<model>"),
    Command("bug", BugHelp, ""),
    Command("doctor", DoctorHelp, ""),
    Command("login", LoginHelp, ""),
    Command("logout", LogoutHelp, ""),
    Command("memory", MemoryHelp, ""),
    Command("permissions", PermissionsHelp, ""),
    Command("status", StatusHelp, ""),
    Command("vim", VimHelp, ""),
    Command("terminal-setup", TerminalSetupHelp, ""),
    Command("config", ConfigHelp, ""),
    Command("add-dir", AddDirHelp, "<directory>"),
    Command("mcp", McpHelp, "")
  ]

  function NamesOf(cs: seq<Command>): (r: set<string>)
    ensures forall n :: n in r <==> exists c :: c in cs && c.name == n
  {
    set c | c in cs :: c.name
  }

  /** No two commands share a name. */
  predicate UniqueNames(cs: seq<Command>) {
    forall i, j :: 0 <= i < j < |cs| ==> cs[i].name != cs[j].name
  }

  lemma BuiltInNamesUnique()
    ensures UniqueNames(BuiltInCommands)
  {
    assert forall i :: 0 <= i < |BuiltInCommands| ==> BuiltInPosition(BuiltInCommands[i].name) == i;
  }

  /** Where a built-in name sits in the list, told apart by its length and first character. */
  ghost function BuiltInPosition(name: string): int {
    var s := if |name| == 0 then 0 else |name| * 256 + name[0] as int;
    if s == 5 * 256 + 'c' as int then 0
    else if s == 4 * 256 + 'h' as int then 1
    else if s == 5 * 256 + 'm' as int then 2
    else if s == 3 * 256 + 'b' as int then 3
    else if s == 6 * 256 + 'd' as int then 4
    else if s == 5 * 256 + 'l' as int then 5
    else if s == 6 * 256 + 'l' as int then 6
    else if s == 6 * 256 + 'm' as int then 7
    else if s == 11 * 256 + 'p' as int then 8
    else if s == 6 * 256 + 's' as int then 9
    else if s == 3 * 256 + 'v' as int then 10
    else if s == 14 * 256 + 't' as int then 11
    else if s == 6 * 256 + 'c' as int then 12
    else if s == 7 * 256 + 'a' as int then 13
    else if s == 3 * 256 + 'm' as int then 14
    else -1
  }

  /** The merge loops: the built-ins, then every skill command whose name is not yet listed. */
  function Merged(builtIns: seq<Command>, skills: seq<Command>): (r: seq<Command>)
    ensures builtIns <= r && |r| <= |builtIns| + |skills|
  {
    if |skills| == 0 then builtIns
    else
      var prev := Merged(builtIns, skills[..|skills| - 1]);
      var c := skills[|skills| - 1];
      if c.name in NamesOf(prev) then prev else prev + [c]
  }

  /** The merge lists only given commands, lists every skill's name, and keeps names unique. */
  lemma {:induction false} MergedMembers(builtIns: seq<Command>, skills: seq<Command>)
    ensures var r := Merged(builtIns, skills);
            && (forall c :: c in r ==> c in builtIns || c in skills)
            && (forall c :: c in skills ==> c.name in NamesOf(r))
            && (UniqueNames(builtIns) ==> UniqueNames(r))
  {
    if |skills| > 0 {
      var init := skills[..|skills| - 1];
      var prev := Merged(builtIns, init);
      var c := skills[|skills| - 1];
      MergedMembers(builtIns, init);
      assert skills == init + [c];
      if c.name !in NamesOf(prev) {
        assert Merged(builtIns, skills) == prev + [c];
        assert forall d :: d in prev ==> d.name != c.name;
      }
    }
  }

  /** Two equal elements at two places count twice. */
  lemma TwiceCounted<T>(s: seq<T>, i: nat, j: nat)
    requires i < j < |s| && s[i] == s[j]
    ensures multiset(s)[s[i]] >= 2
  {
    assert s == s[..j] + [s[j]] + s[j + 1..];
    assert s[i] in s[..j];
  }

  /** An element counted twice sits at two places. */
  lemma TwoPlaces<T>(s: seq<T>, x: T) returns (p: nat, q: nat)
    requires multiset(s)[x] >= 2
    ensures p < q < |s| && s[p] == x && s[q] == x
  {
    var k :| 0 <= k < |s| && s[k] == x;
    assert s == s[..k] + [s[k]] + s[k + 1..];
    assert multiset(s[..k] + s[k + 1..])[x] >= 1;
    if x in s[..k] {
      var m :| 0 <= m < k && s[m] == x;
      p, q := m, k;
    } else {
      assert x in s[k + 1..];
      var m :| 0 <= m < |s| - k - 1 && s[k + 1..][m] == x;
      p, q := k, k + 1 + m;
    }
  }

  /** Reordering keeps names unique. */
  lemma {:induction false} PermutedUniqueNames(a: seq<Command>, b: seq<Command>)
    requires multiset(a) == multiset(b) && UniqueNames(b)
    ensures UniqueNames(a)
  {
    forall i, j | 0 <= i < j < |a|
      ensures a[i].name != a[j].name
    {
      if a[i] == a[j] {
        TwiceCounted(a, i, j);
        var p, q := TwoPlaces(b, a[i]);
        assert false;
      } else {
        assert a[i] in multiset(b) && a[j] in multiset(b);
        var p :| 0 <= p < |b| && b[p] == a[i];
        var q :| 0 <= q < |b| && b[q] == a[j];
        if p < q {
          assert b[p].name != b[q].name;
        } else {
          assert b[q].name != b[p].name;
        }
      }
    }
  }

  /** The two loops of `getAvailableCommands`, with the `seenNames` Set. */
  method MergeCommands(builtIns: seq<Command>, skills: seq<Command>) returns (merged: seq<Command>)
    ensures merged == Merged(builtIns, skills)
  {
    merged := [];
    var seenNames: set<string> := {};
    for i := 0 to |builtIns|
      invariant merged == builtIns[..i] && seenNames == NamesOf(merged)
    {
      assert builtIns[..i + 1] == builtIns[..i] + [builtIns[i]];
      seenNames := seenNames + {builtIns[i].name};
      merged := merged + [builtIns[i]];
    }
    assert builtIns[..|builtIns|] == builtIns;
    for i := 0 to |skills|
      invariant merged == Merged(builtIns, skills[..i]) && seenNames == NamesOf(merged)
    {
      assert skills[..i + 1][..i] == skills[..i];
      if skills[i].name !in seenNames {
        seenNames := seenNames + {skills[i].name};
        merged := merged + [skills[i]];
      }
    }
    assert skills[..|skills|] == skills;
  }

  /** The merged list sorted by name: given unique built-in names, each name is listed once. */
  method SortedMerge(builtIns: seq<Command>, skills: seq<Command>) returns (commands: seq<Command>)
    requires UniqueNames(builtIns)
    ensures multiset(commands) == multiset(Merged(builtIns, skills))
    ensures forall c :: c in builtIns ==> c in commands
    ensures forall c :: c in skills ==> c.name in NamesOf(commands)
    ensures forall c :: c in commands ==> c in builtIns || c in skills
    ensures SortedBy(commands, CommandName) && UniqueNames(commands)
  {
    var merged := MergeCommands(builtIns, skills);
    MergedMembers(builtIns, skills);
    commands := SortBy(merged, CommandName);
    PermutedUniqueNames(commands, merged);
    SameMembers(commands, merged);
  }

  /**
   * `getAvailableCommands` with the cached skill commands: the built-ins
   * and the skill commands with new names, each name once, sorted by name.
   */
  method GetAvailableCommands(cachedCommands: Option<seq<Command>>) returns (commands: seq<Command>)
    ensures var skills := if cachedCommands.Some? then cachedCommands.value else [];
            && multiset(commands) == multiset(Merged(BuiltInCommands, skills))
            && (forall c :: c in BuiltInCommands ==> c in commands)
            && (forall c :: c in skills ==> c.name in NamesOf(commands))
            && (forall c :: c in commands ==> c in BuiltInCommands || c in skills)
    ensures SortedBy(commands, CommandName) && UniqueNames(commands)
  {
    var skills := if cachedCommands.Some? then cachedCommands.value else [];
    BuiltInNamesUnique();
    commands := SortedMerge(BuiltInCommands, skills);
  }

  /** A reordering has the same members and the same names. */
  lemma SameMembers(a: seq<Command>, b: seq<Command>)
    requires multiset(a) == multiset(b)
    ensures forall c :: c in a <==> c in b
    ensures NamesOf(a) == NamesOf(b)
  {
    assert forall c :: c in a <==> c in multiset(a);
    assert forall c :: c in b <==> c in multiset(b);
  }

  // ---- autoArchiveInactiveSessions ----

  /** A session auto-archiving takes: not archived, not running, idle longer than the threshold. */
  predicate Inactive(s: Session, threshold: int, now: int) {
    !s.archived && s.status != Running && now - s.lastActivity > threshold
  }

  function ArchiveIfInactive(s: Session, threshold: int, now: int): (r: Session)
    ensures r.archived == (s.archived || Inactive(s, threshold, now))
    ensures r.(archived := s.archived) == s
  {
    if Inactive(s, threshold, now) then s.(archived := true) else s
  }

  /** Every session of the Map after one pass: the inactive ones archived, nothing else changed. */
  function ArchivedAll(e: M.Entries<string, Session>, threshold: int, now: int): (r: M.Entries<string, Session>)
    ensures |r| == |e|
    ensures forall i :: 0 <= i < |r| ==> r[i] == (e[i].0, ArchiveIfInactive(e[i].1, threshold, now))
  {
    seq(|e|, i requires 0 <= i < |e| => (e[i].0, ArchiveIfInactive(e[i].1, threshold, now)))
  }

  /** The inactive sessions, archived, in Map order: what is saved. */
  function InactiveArchived(e: M.Entries<string, Session>, threshold: int, now: int): (r: seq<Session>)
    ensures |r| <= |e|
  {
    if |e| == 0 then []
    else
      var prev := InactiveArchived(e[..|e| - 1], threshold, now);
      var s := e[|e| - 1].1;
      if Inactive(s, threshold, now) then prev + [s.(archived := true)] else prev
  }

  /** The ids of the inactive sessions, in Map order: what is returned. */
  function InactiveIds(e: M.Entries<string, Session>, threshold: int, now: int): (r: seq<string>)
    ensures |r| <= |e|
  {
    if |e| == 0 then []
    else
      var prev := InactiveIds(e[..|e| - 1], threshold, now);
      var s := e[|e| - 1].1;
      if Inactive(s, threshold, now) then prev + [s.id] else prev
  }

  /**
   * What a pass returns and saves: the ids of exactly the inactive sessions,
   * one archived copy for each, and nothing at all when none is inactive.
   */
  lemma {:induction false} InactiveMembers(e: M.Entries<string, Session>, threshold: int, now: int)
    ensures |InactiveIds(e, threshold, now)| == |InactiveArchived(e, threshold, now)|
    ensures forall id :: id in InactiveIds(e, threshold, now) <==>
              exists i :: 0 <= i < |e| && Inactive(e[i].1, threshold, now) && e[i].1.id == id
    ensures forall s :: s in InactiveArchived(e, threshold, now) ==> s.archived
    ensures InactiveIds(e, threshold, now) == [] <==> forall i :: 0 <= i < |e| ==> !Inactive(e[i].1, threshold, now)
  {
    if |e| > 0 {
      var p := e[..|e| - 1];
      InactiveMembers(p, threshold, now);
      assert forall i :: 0 <= i < |p| ==> p[i] == e[i];
    }
  }

  /** One more session of the Map adds its id and its archived copy exactly when it is inactive. */
  lemma InactiveStep(e: M.Entries<string, Session>, i: nat, threshold: int, now: int)
    requires i < |e|
    ensures InactiveIds(e[..i + 1], threshold, now)
            == InactiveIds(e[..i], threshold, now) + (if Inactive(e[i].1, threshold, now) then [e[i].1.id] else [])
    ensures InactiveArchived(e[..i + 1], threshold, now)
            == InactiveArchived(e[..i], threshold, now) + (if Inactive(e[i].1, threshold, now) then [e[i].1.(archived := true)] else [])
  {
    assert e[..i + 1][..i] == e[..i];
  }

  /** A second pass at the same moment archives nothing more. */
  lemma ArchiveSettles(e: M.Entries<string, Session>, threshold: int, now: int)
    ensures InactiveArchived(ArchivedAll(e, threshold, now), threshold, now) == []
    ensures InactiveIds(ArchivedAll(e, threshold, now), threshold, now) == []
    ensures ArchivedAll(ArchivedAll(e, threshold, now), threshold, now) == ArchivedAll(e, threshold, now)
  {
    var a := ArchivedAll(e, threshold, now);
    assert forall i :: 0 <= i < |a| ==> !Inactive(a[i].1, threshold, now);
    InactiveMembers(a, threshold, now);
  }

  /** The module's `sessions` Map and `knownDirectories` Set. */
  class Store {
    var sessions: M.Entries<string, Session>
    var knownDirectories: set<string>
    var saved: seq<Session>     // the sessions handed to `saveSession`, in order

    constructor()
      ensures sessions == [] && knownDirectories == {} && saved == []
    {
      sessions := [];
      knownDirectories := {};
      saved := [];
    }

    function Find(id: string): (r: Option<Session>)
      reads this
      ensures r == M.Get(sessions, id)
    {
      M.Get(sessions, id)
    }

    /** `getAllSessions`: every session's summary, in Map order. */
    function GetAllSessions(): (r: seq<Summary>)
      reads this
      ensures |r| == |sessions|
      ensures forall i :: 0 <= i < |r| ==> r[i] == Summarize(sessions[i].1)
    {
      seq(|sessions|, i requires 0 <= i < |sessions| reads this => Summarize(sessions[i].1))
    }

    /** `createSession` with `id` as the fresh UUID. */
    method CreateSession(c: NewSession, id: string, now: int, cwd: string) returns (s: Session)
      modifies this
      ensures s == Created(c, id, now, cwd)
      ensures sessions == M.Put(old(sessions), id, s) && saved == old(saved) + [s]
      ensures knownDirectories == old(knownDirectories) + {s.config.workingDirectory}
    {
      s := Created(c, id, now, cwd);
      sessions := M.Put(sessions, id, s);
      knownDirectories := knownDirectories + {s.config.workingDirectory};
      saved := saved + [s];
    }

    /** `interruptSession`: only a session with a running query is interrupted; it becomes idle. */
    method InterruptSession(id: string) returns (ok: bool)
      modifies this
      ensures knownDirectories == old(knownDirectories) && saved == old(saved)
      ensures ok <==> old(Find(id)).Some? && old(Find(id)).value.running
      ensures !ok ==> sessions == old(sessions)
      ensures ok ==> sessions == M.Put(old(sessions), id, old(Find(id)).value.(status := Idle))
    {
      var found := M.Get(sessions, id);
      if found.None? || !found.value.running {
        return false;
      }
      sessions := M.Put(sessions, id, found.value.(status := Idle));
      ok := true;
    }

    /** `forkSession` with `newId` as the fresh UUID: an unknown id fails. */
    method ForkSession(id: string, newId: string, now: int) returns (r: Result<Session>)
      modifies this
      ensures knownDirectories == old(knownDirectories)
      ensures old(Find(id)).None? ==> r == Err(NotFound(id)) && sessions == old(sessions) && saved == old(saved)
      ensures old(Find(id)).Some? ==>
                r == Ok(Forked(old(Find(id)).value, newId, now))
                && sessions == M.Put(old(sessions), newId, r.value) && saved == old(saved) + [r.value]
    {
      var found := M.Get(sessions, id);
      if found.None? {
        return Err(NotFound(id));
      }
      var forked := Forked(found.value, newId, now);
      sessions := M.Put(sessions, newId, forked);
      saved := saved + [forked];
      r := Ok(forked);
    }

    /** `queuePrompt` with `promptId` as the fresh UUID: the prompt goes to the back of the queue. */
    method QueuePrompt(sessionId: string, promptId: string, prompt: string, now: int) returns (r: Option<QueuedPrompt>)
      modifies this
      ensures knownDirectories == old(knownDirectories) && saved == old(saved)
      ensures old(Find(sessionId)).None? ==> r.None? && sessions == old(sessions)
      ensures old(Find(sessionId)).Some? ==>
                r == Some(QueuedPrompt(promptId, prompt, now))
                && sessions == M.Put(old(sessions), sessionId,
                                     old(Find(sessionId)).value.(promptQueue := Some(QueueOf(old(Find(sessionId)).value) + [r.value])))
    {
      var found := M.Get(sessions, sessionId);
      if found.None? {
        return None;
      }
      var queued := QueuedPrompt(promptId, prompt, now);
      var s := found.value;
      sessions := M.Put(sessions, sessionId, s.(promptQueue := Some(QueueOf(s) + [queued])));
      r := Some(queued);
    }

    /** `getQueue`: the session's queue, [] when there is no session or no queue. */
    function GetQueue(sessionId: string): (r: seq<QueuedPrompt>)
      reads this
      ensures Find(sessionId).None? ==> r == []
      ensures Find(sessionId).Some? ==> r == QueueOf(Find(sessionId).value)
    {
      match M.Get(sessions, sessionId)
      case None => []
      case Some(s) => QueueOf(s)
    }

    /** `cancelQueuedPrompt`: removes the first entry with that id; false without a session, a queue or the entry. */
    method CancelQueuedPrompt(sessionId: string, promptId: string) returns (ok: bool)
      modifies this
      ensures knownDirectories == old(knownDirectories) && saved == old(saved)
      ensures ok <==> old(Find(sessionId)).Some? && old(Find(sessionId)).value.promptQueue.Some?
                      && FindPrompt(old(Find(sessionId)).value.promptQueue.value, promptId).Some?
      ensures !ok ==> sessions == old(sessions)
      ensures ok ==> var s := old(Find(sessionId)).value;
                     var q := s.promptQueue.value;
                     sessions == M.Put(old(sessions), sessionId,
                                       s.(promptQueue := Some(RemoveAt(q, FindPrompt(q, promptId).value))))
    {
      var found := M.Get(sessions, sessionId);
      if found.None? || found.value.promptQueue.None? {
        return false;
      }
      var s := found.value;
      var q := s.promptQueue.value;
      var index := FindPrompt(q, promptId);
      if index.None? {
        return false;
      }
      sessions := M.Put(sessions, sessionId, s.(promptQueue := Some(RemoveAt(q, index.value))));
      ok := true;
    }

    /** `dequeuePrompt`: the oldest queued prompt is taken off the front; null when there is none. */
    method DequeuePrompt(sessionId: string) returns (r: Option<QueuedPrompt>)
      modifies this
      ensures knownDirectories == old(knownDirectories) && saved == old(saved)
      ensures old(GetQueue(sessionId)) == [] ==> r.None? && sessions == old(sessions)
      ensures old(GetQueue(sessionId)) != [] ==>
                var s := old(Find(sessionId)).value;
                r == Some(s.promptQueue.value[0])
                && sessions == M.Put(old(sessions), sessionId, s.(promptQueue := Some(s.promptQueue.value[1..])))
    {
      var found := M.Get(sessions, sessionId);
      if found.None? || found.value.promptQueue.None? || |found.value.promptQueue.value| == 0 {
        return None;
      }
      var s := found.value;
      var q := s.promptQueue.value;
      sessions := M.Put(sessions, sessionId, s.(promptQueue := Some(q[1..])));
      r := Some(q[0]);
    }

    /** `renameSession`: the trimmed name, or the old one when it trims to ''; an unknown id fails. */
    method RenameSession(id: string, newName: string) returns (r: Result<Session>)
      modifies this
      ensures knownDirectories == old(knownDirectories)
      ensures old(Find(id)).None? ==> r == Err(NotFound(id)) && sessions == old(sessions) && saved == old(saved)
      ensures old(Find(id)).Some? ==>
                r == Ok(Renamed(old(Find(id)).value, newName))
                && sessions == M.Put(old(sessions), id, r.value) && saved == old(saved) + [r.value]
    {
      var found := M.Get(sessions, id);
      if found.None? {
        return Err(NotFound(id));
      }
      var renamed := Renamed(found.value, newName);
      sessions := M.Put(sessions, id, renamed);
      saved := saved + [renamed];
      r := Ok(renamed);
    }

    /** `archiveSession`: sets `archived`; an unknown id fails. */
    method ArchiveSession(id: string, archived: bool) returns (r: Result<Session>)
      modifies this
      ensures knownDirectories == old(knownDirectories)
      ensures old(Find(id)).None? ==> r == Err(NotFound(id)) && sessions == old(sessions) && saved == old(saved)
      ensures old(Find(id)).Some? ==>
                r == Ok(old(Find(id)).value.(archived := archived))
                && sessions == M.Put(old(sessions), id, r.value) && saved == old(saved) + [r.value]
    {
      var found := M.Get(sessions, id);
      if found.None? {
        return Err(NotFound(id));
      }
      var updated := found.value.(archived := archived);
      sessions := M.Put(sessions, id, updated);
      saved := saved + [updated];
      r := Ok(updated);
    }

    /** `clearSessionMessages`: no messages, a zero count, fresh activity; an unknown id fails. */
    method ClearSessionMessages(id: string, now: int) returns (r: Result<Session>)
      modifies this
      ensures knownDirectories == old(knownDirectories)
      ensures old(Find(id)).None? ==> r == Err(NotFound(id)) && sessions == old(sessions) && saved == old(saved)
      ensures old(Find(id)).Some? ==>
                r == Ok(old(Find(id)).value.(messages := [], messageCount := 0, lastActivity := now))
                && sessions == M.Put(old(sessions), id, r.value) && saved == old(saved) + [r.value]
    {
      var found := M.Get(sessions, id);
      if found.None? {
        return Err(NotFound(id));
      }
      var cleared := found.value.(messages := [], messageCount := 0, lastActivity := now);
      sessions := M.Put(sessions, id, cleared);
      saved := saved + [cleared];
      r := Ok(cleared);
    }

    /** One step of `autoArchiveInactiveSessions`: the session at `i` is archived and saved when inactive. */
    method ArchiveAt(i: nat, threshold: int, now: int) returns (archivedId: seq<string>)
      requires i < |sessions|
      modifies this
      ensures var s := old(sessions[i].1);
              && sessions == old(sessions)[i := (old(sessions[i].0), ArchiveIfInactive(s, threshold, now))]
              && archivedId == (if Inactive(s, threshold, now) then [s.id] else [])
              && saved == old(saved) + (if Inactive(s, threshold, now) then [s.(archived := true)] else [])
      ensures knownDirectories == old(knownDirectories)
    {
      var s := sessions[i].1;
      archivedId := [];
      if Inactive(s, threshold, now) {
        var archived := s.(archived := true);
        sessions := sessions[i := (sessions[i].0, archived)];
        saved := saved + [archived];
        archivedId := [s.id];
      }
    }

    /**
     * `autoArchiveInactiveSessions`: a threshold that is not positive does
     * nothing; otherwise every inactive session is archived and saved, in
     * Map order, and their ids are returned.
     */
    method AutoArchiveInactiveSessions(threshold: int, now: int) returns (ids: seq<string>)
      modifies this
      ensures knownDirectories == old(knownDirectories)
      ensures threshold <= 0 ==> ids == [] && sessions == old(sessions) && saved == old(saved)
      ensures threshold > 0 ==>
                sessions == ArchivedAll(old(sessions), threshold, now)
                && ids == InactiveIds(old(sessions), threshold, now)
                && saved == old(saved) + InactiveArchived(old(sessions), threshold, now)
    {
      if threshold <= 0 {
        return [];
      }
      ids := ArchivePass(threshold, now);
    }

    /** The loop of `autoArchiveInactiveSessions` over every session of the Map. */
    method ArchivePass(threshold: int, now: int) returns (ids: seq<string>)
      modifies this
      ensures knownDirectories == old(knownDirectories)
      ensures sessions == ArchivedAll(old(sessions), threshold, now)
      ensures ids == InactiveIds(old(sessions), threshold, now)
      ensures saved == old(saved) + InactiveArchived(old(sessions), threshold, now)
    {
      ids := [];
      ghost var before := sessions;
      ghost var log := saved;
      var n := |sessions|;
      for i := 0 to n
        invariant |sessions| == n == |before|
        invariant forall j :: 0 <= j < i ==> sessions[j] == (before[j].0, ArchiveIfInactive(before[j].1, threshold, now))
        invariant forall j :: i <= j < n ==> sessions[j] == before[j]
        invariant ids == InactiveIds(before[..i], threshold, now)
        invariant saved == log + InactiveArchived(before[..i], threshold, now)
        invariant knownDirectories == old(knownDirectories)
      {
        InactiveStep(before, i, threshold, now);
        assert sessions[i] == before[i];
        var archivedId := ArchiveAt(i, threshold, now);
        ids := ids + archivedId;
      }
      assert before[..n] == before;
      assert sessions == ArchivedAll(before, threshold, now);
    }
  }

  /** In a Map of one session, that session is found, and a `set` of its id replaces it. */
  lemma OneSession(id: string, s: Session, t: Session)
    ensures M.Get([(id, s)], id) == Some(s)
    ensures M.Put([(id, s)], id, t) == [(id, t)]
  {
  }

  /** Prompts leave the queue in the order they entered it, and an empty queue gives null. */
  method QueueIsFifo(c: NewSession, id: string, now: int, cwd: string, first: string, second: string)
    returns (a: Option<QueuedPrompt>, b: Option<QueuedPrompt>, none: Option<QueuedPrompt>)
    ensures a.Some? && a.value.prompt == first
    ensures b.Some? && b.value.prompt == second
    ensures none.None?
  {
    var store := new Store();
    var s0 := store.CreateSession(c, id, now, cwd);
    var s1 := s0.(promptQueue := Some([QueuedPrompt("p1", first, now)]));
    var s2 := s0.(promptQueue := Some([QueuedPrompt("p1", first, now), QueuedPrompt("p2", second, now)]));
    var s3 := s0.(promptQueue := Some([QueuedPrompt("p2", second, now)]));
    OneSession(id, s0, s1);
    var q1 := store.QueuePrompt(id, "p1", first, now);
    OneSession(id, s1, s2);
    var q2 := store.QueuePrompt(id, "p2", second, now);
    OneSession(id, s2, s3);
    a := store.DequeuePrompt(id);
    OneSession(id, s3, s0);
    b := store.DequeuePrompt(id);
    OneSession(id, s0, s0);
    none := store.DequeuePrompt(id);
  }
}
