/**
 * The browser client's message reducer (clarvis/public/js/app.js,
 * `handleMessage`) and the text its message components show. The React
 * state setters take pure updaters, which are functions here; the
 * `seenMessageIds` Sets, which the reducer changes in place, and the state
 * they guard are the fields of a class. `localeCompare` is modelled as the
 * code-point order of the names.
 */
module ClarvisApp {
  import opened Util

  /** A message's `message.content`: an array of blocks, a plain string, or missing. */
  datatype Content = Blocks(blocks: seq<Block>) | Plain(text: string) | NoContent

  /** An SDK message as the client stores it; `uuid` "" stands for none, `pending` for `_pending`. */
  datatype SdkMsg = SdkMsg(kind: string, subtype: string, uuid: string, pending: bool, content: Content)

  datatype AppSession = AppSession(id: string, name: string, status: string, projectPath: string, sdkSessionId: string)

  datatype Project = Project(name: string, path: string)

  datatype PermissionRequest = PermissionRequest(requestId: string, toolName: string, input: string)

  /** The server messages the reducer handles; `Ignored` stands for 'connected', 'error' and unknown types. */
  datatype ServerMsg =
    | SessionList(sessions: seq<AppSession>)
    | ProjectList(projects: seq<Project>)
    | QueryStarted(sessionId: string)
    | Message(sessionId: string, message: SdkMsg)
    | SessionStatus(sessionId: string, status: string)
    | SessionSdkId(sessionId: string, sdkSessionId: string)
    | PermissionAsked(sessionId: string, request: PermissionRequest)
    | PermissionResolved(sessionId: string)
    | QueryComplete
    | ProjectCreated(project: Project)
    | SessionDeleted(sessionId: string)
    | SessionRenamed(sessionId: string, name: string)
    | History(sessionId: string, messages: seq<SdkMsg>)
    | Ignored

  /** What the client sends back through the socket. */
  datatype Outgoing = Subscribe(sessionId: string) | ListSessions

  predicate IsInit(m: SdkMsg) {
    m.kind == "system" && m.subtype == "init"
  }

  // ---- messages of a session ----

  /** `findIndex(m => m._pending && m.type === 'user')` */
  function FirstPendingUser(msgs: seq<SdkMsg>): (r: Option<nat>)
    ensures r.None? <==> forall i :: 0 <= i < |msgs| ==> !(msgs[i].pending && msgs[i].kind == "user")
    ensures r.Some? ==> r.value < |msgs| && msgs[r.value].pending && msgs[r.value].kind == "user"
                        && forall i :: 0 <= i < r.value ==> !(msgs[i].pending && msgs[i].kind == "user")
  {
    if |msgs| == 0 then None
    else if msgs[0].pending && msgs[0].kind == "user" then Some(0)
    else match FirstPendingUser(msgs[1..])
      case None => None
      case Some(k) => Some(k + 1)
  }

  /**
   * The `setMessages` updater for one new message: a user message with a
   * uuid takes the place of the first pending user message; anything else
   * is appended.
   */
  function WithMessage(msgs: seq<SdkMsg>, m: SdkMsg): (r: seq<SdkMsg>)
    ensures var k := FirstPendingUser(msgs);
            m.kind == "user" && m.uuid != "" && k.Some? ==>
              |r| == |msgs| && r[..k.value] == msgs[..k.value] && r[k.value] == m && r[k.value + 1..] == msgs[k.value + 1..]
    ensures !(m.kind == "user" && m.uuid != "" && FirstPendingUser(msgs).Some?) ==>
              |r| == |msgs| + 1 && r[|msgs|] == m && r[..|msgs|] == msgs
  {
    var k := FirstPendingUser(msgs);
    if m.kind == "user" && m.uuid != "" && k.Some? then
      var r := msgs[k.value := m];
      assert r[k.value] == m && r[..k.value] == msgs[..k.value] && r[k.value + 1..] == msgs[k.value + 1..];
      r
    else
      var r := msgs + [m];
      assert r[|msgs|] == m && r[..|msgs|] == msgs;
      r
  }

  /** The number of pending user messages: the local echoes not yet confirmed. */
  function PendingCount(msgs: seq<SdkMsg>): (n: nat)
    ensures n <= |msgs|
  {
    if |msgs| == 0 then 0
    else (if msgs[0].pending && msgs[0].kind == "user" then 1 else 0) + PendingCount(msgs[1..])
  }

  /** Replacing a pending user message by a message that is not pending lowers the count by one. */
  lemma {:induction false} PendingCountReplace(msgs: seq<SdkMsg>, k: nat, m: SdkMsg)
    requires k < |msgs| && msgs[k].pending && msgs[k].kind == "user" && !m.pending
    ensures PendingCount(msgs[k := m]) == PendingCount(msgs) - 1
  {
    if k > 0 {
      assert msgs[k := m][1..] == msgs[1..][k - 1 := m];
      PendingCountReplace(msgs[1..], k - 1, m);
    }
  }

  lemma {:induction false} PendingCountAppend(msgs: seq<SdkMsg>, m: SdkMsg)
    ensures PendingCount(msgs + [m]) == PendingCount(msgs) + (if m.pending && m.kind == "user" then 1 else 0)
  {
    if |msgs| > 0 {
      assert (msgs + [m])[1..] == msgs[1..] + [m];
      PendingCountAppend(msgs[1..], m);
    } else {
      assert [m][1..] == [];
    }
  }

  /**
   * A confirmed user message replaces a local echo while there is one, and
   * then the list keeps its length; otherwise the list grows by one.
   */
  lemma WithMessagePending(msgs: seq<SdkMsg>, m: SdkMsg)
    requires !m.pending
    ensures m.kind == "user" && m.uuid != "" && PendingCount(msgs) > 0 ==>
              |WithMessage(msgs, m)| == |msgs| && PendingCount(WithMessage(msgs, m)) == PendingCount(msgs) - 1
    ensures !(m.kind == "user" && m.uuid != "" && PendingCount(msgs) > 0) ==>
              WithMessage(msgs, m) == msgs + [m] && PendingCount(WithMessage(msgs, m)) == PendingCount(msgs)
  {
    var k := FirstPendingUser(msgs);
    if k.Some? {
      PendingCountReplace(msgs, k.value, m);
    } else {
      PendingCountNone(msgs);
    }
    PendingCountAppend(msgs, m);
  }

  lemma {:induction false} PendingCountNone(msgs: seq<SdkMsg>)
    requires forall i :: 0 <= i < |msgs| ==> !(msgs[i].pending && msgs[i].kind == "user")
    ensures PendingCount(msgs) == 0
  {
    if |msgs| > 0 {
      PendingCountNone(msgs[1..]);
    }
  }

  /** The uuids a list of messages carries. */
  function Uuids(msgs: seq<SdkMsg>): (r: set<string>)
    ensures forall u :: u in r <==> exists i :: 0 <= i < |msgs| && msgs[i].uuid == u && u != ""
  {
    set i | 0 <= i < |msgs| && msgs[i].uuid != "" :: msgs[i].uuid
  }

  // ---- the session list ----

  // WithStatus, WithSdkId and WithName mirror three separate `prev.map` calls
  // of clarvis/public/js/app.js, each replacing one field of the session.

  /** `prev.map(s => s.id === id ? { ...s, status } : s)` */
  function WithStatus(sessions: seq<AppSession>, id: string, status: string): (r: seq<AppSession>)
    ensures |r| == |sessions|
    ensures forall i :: 0 <= i < |r| ==>
              r[i] == if sessions[i].id == id then sessions[i].(status := status) else sessions[i]
  {
    seq(|sessions|, i requires 0 <= i < |sessions| =>
      if sessions[i].id == id then sessions[i].(status := status) else sessions[i])
  }

  /** The same for `sdkSessionId`. */
  function WithSdkId(sessions: seq<AppSession>, id: string, sdkId: string): (r: seq<AppSession>)
    ensures |r| == |sessions|
    ensures forall i :: 0 <= i < |r| ==>
              r[i] == if sessions[i].id == id then sessions[i].(sdkSessionId := sdkId) else sessions[i]
  {
    seq(|sessions|, i requires 0 <= i < |sessions| =>
      if sessions[i].id == id then sessions[i].(sdkSessionId := sdkId) else sessions[i])
  }

  /** The same for `name`. */
  function WithName(sessions: seq<AppSession>, id: string, name: string): (r: seq<AppSession>)
    ensures |r| == |sessions|
    ensures forall i :: 0 <= i < |r| ==>
              r[i] == if sessions[i].id == id then sessions[i].(name := name) else sessions[i]
  {
    seq(|sessions|, i requires 0 <= i < |sessions| =>
      if sessions[i].id == id then sessions[i].(name := name) else sessions[i])
  }

  /** `prev.filter(s => s.id !== id)` */
  function WithoutSession(sessions: seq<AppSession>, id: string): (r: seq<AppSession>)
    ensures forall s :: s in r <==> s in sessions && s.id != id
    ensures |r| <= |sessions|
  {
    if |sessions| == 0 then []
    else if sessions[0].id == id then WithoutSession(sessions[1..], id)
    else [sessions[0]] + WithoutSession(sessions[1..], id)
  }

  // ---- projects, sorted by name ----

  function ProjectName(p: Project): string {
    p.name
  }

  // ---- the text components show ----

  /** The '\n'-joined texts of the text blocks, a plain string as it is, '' when missing. */
  function TextOf(content: Content): (r: string)
    ensures content.Plain? ==> r == content.text
    ensures content.NoContent? ==> r == ""
    ensures content.Blocks? ==> forall b :: b in content.blocks && b.kind == "text" ==> Contains(r, b.text)
    ensures content.Blocks? ==> r == Join(TextsOf(content.blocks), "\n")
  {
    match content
    case Blocks(blocks) => JoinContainsAll(TextsOf(blocks), "\n"); Join(TextsOf(blocks), "\n")
    case Plain(text) => text
    case NoContent => ""
  }

  /** Blocks without text blocks show no text. */
  lemma NoTextBlocks(blocks: seq<Block>)
    requires forall i :: 0 <= i < |blocks| ==> blocks[i].kind != "text"
    ensures TextOf(Blocks(blocks)) == ""
  {
    NoTexts(blocks);
  }

  const PreviewLength := 100

  /** The tool-result preview: the first 100 characters, and '...' when there are more. */
  function Preview(text: string): (r: string)
    ensures |text| <= PreviewLength ==> r == text
    ensures |text| > PreviewLength ==> |r| == PreviewLength + 3 && r[..PreviewLength] == text[..PreviewLength]
                                        && EndsWith(r, "...")
  {
    if |text| > PreviewLength then
      var r := text[..PreviewLength] + "...";
      assert r[..PreviewLength] == text[..PreviewLength];
      assert r[|r| - 3..] == "...";
      r
    else text
  }

  /** The reducer's state. */
  class App {
    var sessions: seq<AppSession>
    var activeSessionId: Option<string>
    var messages: map<string, seq<SdkMsg>>
    var projects: seq<Project>
    var permissionRequests: map<string, PermissionRequest>
    var seen: map<string, set<string>>
    var sent: seq<Outgoing>

    constructor()
      ensures sessions == [] && activeSessionId == None && messages == map[] && projects == []
      ensures permissionRequests == map[] && seen == map[] && sent == []
    {
      sessions := [];
      activeSessionId := None;
      messages := map[];
      projects := [];
      permissionRequests := map[];
      seen := map[];
      sent := [];
    }

    /** The seen uuids of a session, none before its Set exists. */
    function SeenOf(sessionId: string): (r: set<string>)
      reads this
      ensures sessionId !in seen ==> r == {}
    {
      if sessionId in seen then seen[sessionId] else {}
    }

    /** The stored messages of a session, none before it has a list. */
    function MessagesOf(sessionId: string): (r: seq<SdkMsg>)
      reads this
      ensures sessionId !in messages ==> r == []
    {
      if sessionId in messages then messages[sessionId] else []
    }

    /**
     * A 'message': an init message is never stored; a uuid already seen for
     * the session is dropped; otherwise the uuid is marked as seen and the
     * message is stored by `WithMessage`.
     */
    method ReceiveMessage(sessionId: string, m: SdkMsg)
      modifies this
      ensures sessions == old(sessions) && projects == old(projects) && sent == old(sent)
      ensures permissionRequests == old(permissionRequests) && activeSessionId == old(activeSessionId)
      ensures IsInit(m) ==> messages == old(messages) && seen == old(seen)
      ensures !IsInit(m) && m.uuid != "" && m.uuid in old(SeenOf(sessionId)) ==>
                messages == old(messages) && seen == old(seen)[sessionId := old(SeenOf(sessionId))]
      ensures !IsInit(m) && !(m.uuid != "" && m.uuid in old(SeenOf(sessionId))) ==>
                messages == old(messages)[sessionId := WithMessage(old(MessagesOf(sessionId)), m)]
                && seen == old(seen)[sessionId := old(SeenOf(sessionId)) + (if m.uuid != "" then {m.uuid} else {})]
    {
      if IsInit(m) {
        return;
      }
      var list := MessagesOf(sessionId);
      var before := SeenOf(sessionId);
      if sessionId !in seen {
        seen := seen[sessionId := {}];
      }
      assert seen == old(seen)[sessionId := before];
      if m.uuid != "" && m.uuid in seen[sessionId] {
        return;
      }
      var marked := if m.uuid != "" then seen[sessionId] + {m.uuid} else seen[sessionId];
      assert marked == before + (if m.uuid != "" then {m.uuid} else {});
      seen := seen[sessionId := marked];
      messages := messages[sessionId := WithMessage(list, m)];
    }

    /** A 'history': the session's list is replaced, and every uuid in it is marked as seen. */
    method ReceiveHistory(sessionId: string, history: seq<SdkMsg>)
      modifies this
      ensures sessions == old(sessions) && projects == old(projects) && sent == old(sent)
      ensures permissionRequests == old(permissionRequests) && activeSessionId == old(activeSessionId)
      ensures messages == old(messages)[sessionId := history]
      ensures seen == old(seen)[sessionId := old(SeenOf(sessionId)) + Uuids(history)]
    {
      if sessionId !in seen {
        seen := seen[sessionId := {}];
      }
      ghost var before := seen[sessionId];
      for i := 0 to |history|
        invariant sessionId in seen && seen == old(seen)[sessionId := seen[sessionId]]
        invariant seen[sessionId] == before + Uuids(history[..i])
        invariant before == old(SeenOf(sessionId))
        invariant messages == old(messages) && sessions == old(sessions) && projects == old(projects)
        invariant sent == old(sent) && permissionRequests == old(permissionRequests)
        invariant activeSessionId == old(activeSessionId)
      {
        assert Uuids(history[..i + 1]) == Uuids(history[..i]) + (if history[i].uuid != "" then {history[i].uuid} else {}) by {
          assert history[..i + 1] == history[..i] + [history[i]];
        }
        if history[i].uuid != "" {
          seen := seen[sessionId := seen[sessionId] + {history[i].uuid}];
        }
      }
      assert history[..|history|] == history;
      messages := messages[sessionId := history];
    }

    /** `handleMessage` */
    method HandleMessage(msg: ServerMsg)
      modifies this
      ensures match msg
        case SessionList(list) => sessions == list && projects == old(projects) && messages == old(messages)
        case ProjectList(list) => projects == list && sessions == old(sessions)
        case QueryStarted(id) => activeSessionId == Some(id) && sent == old(sent) + [Subscribe(id)]
                                 && sessions == old(sessions) && messages == old(messages)
        case Message(id, m) =>
          (IsInit(m) ==> messages == old(messages) && seen == old(seen))
          && (!IsInit(m) && !(m.uuid != "" && m.uuid in old(SeenOf(id))) ==>
                messages == old(messages)[id := WithMessage(old(MessagesOf(id)), m)]
                && seen == old(seen)[id := old(SeenOf(id)) + (if m.uuid != "" then {m.uuid} else {})])
          && (!IsInit(m) && m.uuid != "" && m.uuid in old(SeenOf(id)) ==>
                messages == old(messages) && seen == old(seen)[id := old(SeenOf(id))])
          && sessions == old(sessions)
        case SessionStatus(id, status) => sessions == WithStatus(old(sessions), id, status) && messages == old(messages)
        case SessionSdkId(id, sdkId) => sessions == WithSdkId(old(sessions), id, sdkId) && messages == old(messages)
        case PermissionAsked(id, request) => permissionRequests == old(permissionRequests)[id := request]
                                             && messages == old(messages) && sessions == old(sessions)
        case PermissionResolved(id) => permissionRequests == old(permissionRequests) - {id}
                                       && messages == old(messages) && sessions == old(sessions)
        case QueryComplete => sent == old(sent) + [ListSessions] && sessions == old(sessions)
        case ProjectCreated(p) => projects == SortBy(old(projects) + [p], ProjectName)
        case SessionDeleted(id) => sessions == WithoutSession(old(sessions), id) && messages == old(messages) - {id}
                                   && permissionRequests == old(permissionRequests)
        case SessionRenamed(id, name) => sessions == WithName(old(sessions), id, name) && messages == old(messages)
        case History(id, history) =>
          messages == old(messages)[id := history] && seen == old(seen)[id := old(SeenOf(id)) + Uuids(history)]
        case Ignored => sessions == old(sessions) && messages == old(messages) && projects == old(projects)
                        && sent == old(sent) && seen == old(seen)
    {
      match msg
      case SessionList(list) => sessions := list;
      case ProjectList(list) => projects := list;
      case QueryStarted(id) =>
        sent := sent + [Subscribe(id)];
        activeSessionId := Some(id);
      case Message(id, m) => ReceiveMessage(id, m);
      case SessionStatus(id, status) => sessions := WithStatus(sessions, id, status);
      case SessionSdkId(id, sdkId) => sessions := WithSdkId(sessions, id, sdkId);
      case PermissionAsked(id, request) => permissionRequests := permissionRequests[id := request];
      case PermissionResolved(id) => permissionRequests := permissionRequests - {id};
      case QueryComplete => sent := sent + [ListSessions];
      case ProjectCreated(p) => projects := SortBy(projects + [p], ProjectName);
      case SessionDeleted(id) =>
        sessions := WithoutSession(sessions, id);
        messages := messages - {id};
      case SessionRenamed(id, name) => sessions := WithName(sessions, id, name);
      case History(id, history) => ReceiveHistory(id, history);
      case Ignored =>
    }
  }

  /** A message with a uuid is applied once: the same message again changes nothing. */
  method ReplayIgnored(sessionId: string, m: SdkMsg) returns (once: seq<SdkMsg>, twice: seq<SdkMsg>)
    requires m.uuid != "" && !IsInit(m)
    ensures once == twice == [m]
  {
    var app := new App();
    app.HandleMessage(Message(sessionId, m));
    once := app.MessagesOf(sessionId);
    app.HandleMessage(Message(sessionId, m));
    twice := app.MessagesOf(sessionId);
  }

  /** Init messages are never stored. */
  method InitNeverStored(sessionId: string, m: SdkMsg) returns (stored: seq<SdkMsg>)
    requires IsInit(m)
    ensures stored == []
  {
    var app := new App();
    app.HandleMessage(Message(sessionId, m));
    stored := app.MessagesOf(sessionId);
  }

  /** After a history, a replay of any of its messages that has a uuid is dropped. */
  method HistoryThenReplay(sessionId: string, history: seq<SdkMsg>, i: nat) returns (before: seq<SdkMsg>, after: seq<SdkMsg>)
    requires i < |history| && history[i].uuid != ""
    ensures before == history && after == history
  {
    var app := new App();
    app.HandleMessage(History(sessionId, history));
    before := app.MessagesOf(sessionId);
    assert history[i].uuid in Uuids(history);
    app.HandleMessage(Message(sessionId, history[i]));
    after := app.MessagesOf(sessionId);
  }

  /** A deleted session loses its messages; a permission request is cleared by its resolution. */
  method DeleteAndResolve(sessionId: string, m: SdkMsg, request: PermissionRequest)
    returns (stored: bool, pending: bool)
    requires !IsInit(m)
    ensures !stored && !pending
  {
    var app := new App();
    app.HandleMessage(Message(sessionId, m));
    app.HandleMessage(PermissionAsked(sessionId, request));
    app.HandleMessage(SessionDeleted(sessionId));
    app.HandleMessage(PermissionResolved(sessionId));
    stored := sessionId in app.messages;
    pending := sessionId in app.permissionRequests;
  }
}
