/**
 * The Clarvis server's WebSocket message handler
 * (clarvis/server/ws-handler.js). Sockets are numbered; whether a socket is
 * open is a parameter of every send. `sessionConnections` maps a session to
 * the sockets that follow it, and each authorised socket keeps the list of
 * sessions it subscribed to. The session store, project discovery and the
 * query runner it calls are outside this file and are given as parameters;
 * a query's pending permission requests are a field standing for the
 * runner's `pendingPermissions` Maps.
 */
module ClarvisWs {
  import opened Util
  import M = JsMap
  import A = ClarvisAuth

  type Socket = nat

  /** A message sent: its type, the session it names, and the error or detail text. */
  datatype Reply = Reply(kind: string, sessionId: string, detail: string)

  /** A message and the sockets it is written to. */
  datatype Delivery = Delivery(to: set<Socket>, reply: Reply)

  /** The fields of a client message the handler reads; "" stands for absent. */
  datatype ClientMessage = ClientMessage(
    kind: string, sessionId: string, requestId: string, decision: string,
    updatedInput: Option<string>, prompt: string, cwd: string, name: string)

  /**
   * What the handler asks of the code around it, as answers given in
   * advance: the rendered lists of projects, sessions, models and commands;
   * `getSession`; the rendered history of a session; the results of
   * `interruptQuery` and of the rename through `updateSession`; `existsSync` and `mkdirSync` on a project path (None
   * when the directory was made, else the error's message); and
   * `config.projectsRoot`.
   */
  datatype Services = Services(
    projects: string, sessions: string, models: string, commands: string,
    sessionExists: string -> bool, history: string -> string,
    interrupted: string -> bool, renamed: (string, string) -> bool,
    pathExists: string -> bool, mkdir: string -> Option<string>, projectsRoot: string)

  /** `String(b)` for the boolean results sent back. */
  function BoolText(b: bool): string {
    if b then "true" else "false"
  }

  datatype Decision = Allow(updatedInput: Option<string>) | Deny(message: string)

  const Unauthorized := 4001
  const Running := "running"

  function Error(text: string): Reply {
    Reply("error", "", text)
  }

  /** `send(ws, m)`: written only when the socket is open. */
  function Send(ws: Socket, m: Reply, isOpen: Socket -> bool): (d: Delivery)
    ensures d.to <= {ws} && (ws in d.to <==> isOpen(ws)) && d.reply == m
  {
    Delivery(if isOpen(ws) then {ws} else {}, m)
  }

  /** The sockets following `sessionId`, none when it has no entry. */
  function Followers(e: M.Entries<string, set<Socket>>, sessionId: string): set<Socket> {
    match M.Get(e, sessionId)
    case None => {}
    case Some(s) => s
  }

  /** `broadcast(sessionId, m)`: written to the open sockets that follow the session. */
  function Broadcast(e: M.Entries<string, set<Socket>>, sessionId: string, m: Reply, isOpen: Socket -> bool)
    : (d: Delivery)
    ensures forall ws :: ws in d.to <==> ws in Followers(e, sessionId) && isOpen(ws)
  {
    var to := set ws | ws in Followers(e, sessionId) && isOpen(ws);
    Delivery(to, m)
  }

  /** `addConnection`: the socket joins the session's set, created on first use. */
  function Added(e: M.Entries<string, set<Socket>>, sessionId: string, ws: Socket): M.Entries<string, set<Socket>> {
    M.Put(e, sessionId, Followers(e, sessionId) + {ws})
  }

  /** `removeConnection`: the socket leaves the session's set, and an emptied set is deleted. */
  function Removed(e: M.Entries<string, set<Socket>>, sessionId: string, ws: Socket): M.Entries<string, set<Socket>> {
    match M.Get(e, sessionId)
    case None => e
    case Some(s) => if s - {ws} == {} then M.Remove(e, sessionId) else M.Put(e, sessionId, s - {ws})
  }

  /** The registry's invariant: distinct sessions, and no session with an empty set. */
  ghost predicate NoEmptySets(e: M.Entries<string, set<Socket>>) {
    M.Distinct(e) && forall x :: x in e ==> x.1 != {}
  }

  lemma AddedKeeps(e: M.Entries<string, set<Socket>>, sessionId: string, ws: Socket)
    requires NoEmptySets(e)
    ensures NoEmptySets(Added(e, sessionId, ws))
    ensures ws in Followers(Added(e, sessionId, ws), sessionId)
    ensures forall s :: s != sessionId ==> Followers(Added(e, sessionId, ws), s) == Followers(e, s)
  {
    var v := Followers(e, sessionId) + {ws};
    M.PutKeepsDistinct(e, sessionId, v);
    M.PutMembers(e, sessionId, v);
    M.PutGet(e, sessionId, v);
  }

  /** Removing a socket keeps every set non-empty and touches no other session. */
  lemma RemovedKeeps(e: M.Entries<string, set<Socket>>, sessionId: string, ws: Socket)
    requires NoEmptySets(e)
    ensures NoEmptySets(Removed(e, sessionId, ws))
    ensures Followers(Removed(e, sessionId, ws), sessionId) == Followers(e, sessionId) - {ws}
    ensures forall s :: s != sessionId ==> Followers(Removed(e, sessionId, ws), s) == Followers(e, s)
  {
    match M.Get(e, sessionId)
    case None =>
    case Some(s) =>
      if s - {ws} == {} {
        M.RemoveKeepsDistinct(e, sessionId);
        M.RemoveGet(e, sessionId);
      } else {
        M.PutKeepsDistinct(e, sessionId, s - {ws});
        M.PutMembers(e, sessionId, s - {ws});
        M.PutGet(e, sessionId, s - {ws});
      }
  }

  /** The registry after a socket leaves each session of `sessions` in turn. */
  function RemovedAll(e: M.Entries<string, set<Socket>>, sessions: seq<string>, ws: Socket)
    : M.Entries<string, set<Socket>>
  {
    if |sessions| == 0 then e
    else Removed(RemovedAll(e, sessions[..|sessions| - 1], ws), sessions[|sessions| - 1], ws)
  }

  /** After leaving them, the socket follows none of the sessions and the others are untouched. */
  lemma {:induction false} RemovedAllClears(e: M.Entries<string, set<Socket>>, sessions: seq<string>, ws: Socket)
    requires NoEmptySets(e)
    ensures NoEmptySets(RemovedAll(e, sessions, ws))
    ensures forall s :: s in sessions ==> ws !in Followers(RemovedAll(e, sessions, ws), s)
    ensures forall s :: s !in sessions ==> Followers(RemovedAll(e, sessions, ws), s) == Followers(e, s)
  {
    if |sessions| > 0 {
      var init := sessions[..|sessions| - 1];
      var last := sessions[|sessions| - 1];
      RemovedAllClears(e, init, ws);
      RemovedKeeps(RemovedAll(e, init, ws), last, ws);
      assert sessions == init + [last];
    }
  }

  /** The message types `handleMessage` has a case for. */
  datatype Kind =
    | ListProjects | ListSessions | GetModels | GetCommands | Subscribe | Unsubscribe | Query | Resume
    | GetHistory | Interrupt | Permission | CreateProject | DeleteSession | RenameSession

  /** The `type` string of each case. */
  function KindName(k: Kind): string {
    match k
    case ListProjects => "list_projects"
    case ListSessions => "list_sessions"
    case GetModels => "get_models"
    case GetCommands => "get_commands"
    case Subscribe => "subscribe"
    case Unsubscribe => "unsubscribe"
    case Query => "query"
    case Resume => "resume"
    case GetHistory => "get_history"
    case Interrupt => "interrupt"
    case Permission => "permission"
    case CreateProject => "create_project"
    case DeleteSession => "delete_session"
    case RenameSession => "rename_session"
  }

  /** The `switch (message.type)`: the case a type string selects, None for the default. */
  function ParseKind(t: string): (r: Option<Kind>)
    ensures r.Some? ==> KindName(r.value) == t
  {
    if t == "list_projects" then Some(ListProjects)
    else if t == "list_sessions" then Some(ListSessions)
    else if t == "get_models" then Some(GetModels)
    else if t == "get_commands" then Some(GetCommands)
    else if t == "subscribe" then Some(Kind.Subscribe)
    else if t == "unsubscribe" then Some(Unsubscribe)
    else if t == "query" then Some(Query)
    else if t == "resume" then Some(Resume)
    else if t == "get_history" then Some(GetHistory)
    else if t == "interrupt" then Some(Interrupt)
    else if t == "permission" then Some(Permission)
    else if t == "create_project" then Some(CreateProject)
    else if t == "delete_session" then Some(DeleteSession)
    else if t == "rename_session" then Some(RenameSession)
    else None
  }

  /** Every case is selected by its own type string and by no other. */
  lemma KindRoundTrip(k: Kind, t: string)
    ensures ParseKind(KindName(k)) == Some(k)
    ensures ParseKind(t) == Some(k) ==> t == KindName(k)
  {
    match k
    case ListProjects =>
    case ListSessions =>
    case GetModels =>
    case GetCommands =>
    case Subscribe =>
    case Unsubscribe =>
    case Query =>
    case Resume =>
    case GetHistory =>
    case Interrupt =>
    case Permission =>
    case CreateProject =>
    case DeleteSession =>
    case RenameSession =>
  }

  /** The cases that only reply and leave the handler's state alone. */
  predicate ReplyOnly(k: Kind) {
    !(k.Subscribe? || k.Unsubscribe? || k.Query? || k.Resume? || k.Permission?)
  }

  const MkdirFailed := "Failed to create project: "
  /**
   * The `success` of a session_deleted reply: `deleteSession` is async and
   * is not awaited, so a pending Promise is sent, which JSON writes as `{}`.
   */
  const PendingPromise := "{}"
  const NotFound := "Session not found"

  /**
   * The one reply of a case that only replies: the list asked for, the
   * history of a known session, the result of an interrupt or a rename, the
   * unawaited deletion, or the new project's path. The reply is an error exactly for an
   * unknown session's history or rename, and for a project without a name,
   * one that exists or one whose directory could not be made.
   */
  function Answer(k: Kind, msg: ClientMessage, svc: Services): (r: Reply)
    requires ReplyOnly(k)
    ensures r.kind == "error" <==>
              (k == GetHistory && !svc.sessionExists(msg.sessionId))
              || (k == RenameSession && !svc.renamed(msg.sessionId, msg.name))
              || (k == CreateProject && (msg.name == "" || svc.pathExists(svc.projectsRoot + "/" + msg.name)
                                         || svc.mkdir(svc.projectsRoot + "/" + msg.name).Some?))
    ensures k == CreateProject && r.kind != "error" ==> r.detail == svc.projectsRoot + "/" + msg.name
    ensures k in {GetHistory, Interrupt, DeleteSession, RenameSession} && r.kind != "error" ==>
              r.sessionId == msg.sessionId
    ensures k == DeleteSession ==> r.kind == "session_deleted" && r.detail == PendingPromise
  {
    match k
    case ListProjects => Reply("projects", "", svc.projects)
    case ListSessions => Reply("sessions", "", svc.sessions)
    case GetModels => Reply("models", "", svc.models)
    case GetCommands => Reply("commands", "", svc.commands)
    case GetHistory =>
      if svc.sessionExists(msg.sessionId) then Reply("history", msg.sessionId, svc.history(msg.sessionId))
      else Error(NotFound)
    case Interrupt => Reply("interrupt_result", msg.sessionId, BoolText(svc.interrupted(msg.sessionId)))
    case CreateProject =>
      var path := svc.projectsRoot + "/" + msg.name;
      if msg.name == "" then Error("Project name required")
      else if svc.pathExists(path) then Error("Project already exists")
      else if svc.mkdir(path).Some? then Error(MkdirFailed + svc.mkdir(path).value)
      else Reply("project_created", "", path)
    case DeleteSession => Reply("session_deleted", msg.sessionId, PendingPromise)
    case RenameSession =>
      if svc.renamed(msg.sessionId, msg.name) then Reply("session_renamed", msg.sessionId, msg.name)
      else Error(NotFound)
  }

  /**
   * The delete_session reply says the same whether or not the session
   * existed: its `success` is the pending Promise either way.
   */
  lemma DeleteReplyIgnoresOutcome(msg: ClientMessage, svc: Services, svc': Services)
    ensures Answer(DeleteSession, msg, svc) == Answer(DeleteSession, msg, svc')
    ensures Answer(DeleteSession, msg, svc).detail != BoolText(true)
  {
  }

  /** The handler's state. */
  class Handler {
    var connections: M.Entries<string, set<Socket>>   // sessionConnections
    var subscribed: map<Socket, seq<string>>           // each authorised socket's subscribedSessions
    var queries: map<string, set<string>>              // active queries' pending permission request ids
    var resolutions: seq<(string, Decision)>           // permission promises resolved, in order

    ghost predicate Valid()
      reads this
    {
      NoEmptySets(connections) && forall ws :: ws in subscribed ==> NoDup(subscribed[ws])
    }

    constructor()
      ensures Valid() && connections == [] && subscribed == map[] && queries == map[] && resolutions == []
    {
      connections := [];
      subscribed := map[];
      queries := map[];
      resolutions := [];
    }

    /**
     * `handleConnection`: a missing or wrong password gets an error and the
     * socket is closed with 4001, with no handlers installed; otherwise the
     * socket starts with no subscriptions and is told it is connected.
     */
    method HandleConnection(ws: Socket, password: Option<string>, auth: A.Auth, isOpen: Socket -> bool)
      returns (sent: seq<Delivery>, closeCode: Option<int>)
      requires Valid()
      modifies this
      ensures Valid() && connections == old(connections) && queries == old(queries)
      ensures resolutions == old(resolutions)
      ensures var ok := password.Some? && auth.ValidatePassword(password.value);
              && (!ok ==> sent == [Send(ws, Error("Invalid or missing password"), isOpen)]
                          && closeCode == Some(Unauthorized) && subscribed == old(subscribed))
              && (ok ==> sent == [Send(ws, Reply("connected", "", ""), isOpen)]
                         && closeCode == None && subscribed == old(subscribed)[ws := []])
    {
      if password.None? || !auth.ValidatePassword(password.value) {
        return [Send(ws, Error("Invalid or missing password"), isOpen)], Some(Unauthorized);
      }
      subscribed := subscribed[ws := []];
      sent, closeCode := [Send(ws, Reply("connected", "", ""), isOpen)], None;
    }

    /** The socket follows `sessionId`: in its own list and in the registry. */
    method Subscribe(ws: Socket, sessionId: string)
      requires Valid() && ws in subscribed
      modifies this
      ensures Valid() && queries == old(queries) && resolutions == old(resolutions)
      ensures connections == Added(old(connections), sessionId, ws)
      ensures subscribed == old(subscribed)[ws := SetAdd(old(subscribed)[ws], sessionId)]
    {
      AddedKeeps(connections, sessionId, ws);
      connections := Added(connections, sessionId, ws);
      subscribed := subscribed[ws := SetAdd(subscribed[ws], sessionId)];
    }

    /**
     * `handleMessage`: one answer per message type. Subscribe, unsubscribe,
     * query and resume change who follows a session; a permission answer
     * resolves a pending request; the other known types only reply with
     * what the surrounding code gives back; an unknown type is an error.
     * `freshId` stands for the random id a query without a session id gets.
     */
    method HandleMessage(ws: Socket, msg: ClientMessage, svc: Services, freshId: string, isOpen: Socket -> bool)
      returns (sent: seq<Delivery>)
      requires Valid() && ws in subscribed
      modifies this
      ensures Valid() && ws in subscribed
      ensures ParseKind(msg.kind) in {Some(Kind.Subscribe), Some(Unsubscribe)} && msg.sessionId == "" ==> sent == [] && unchanged(this)
      ensures ParseKind(msg.kind) == Some(Kind.Subscribe) && msg.sessionId != "" ==>
                connections == Added(old(connections), msg.sessionId, ws)
                && subscribed == old(subscribed)[ws := SetAdd(old(subscribed)[ws], msg.sessionId)]
                && queries == old(queries) && resolutions == old(resolutions)
                && sent == [Send(ws, Reply("subscribed", msg.sessionId, ""), isOpen)]
      ensures ParseKind(msg.kind) == Some(Unsubscribe) && msg.sessionId != "" ==>
                connections == Removed(old(connections), msg.sessionId, ws)
                && subscribed == old(subscribed)[ws := Without(old(subscribed)[ws], msg.sessionId)]
                && msg.sessionId !in subscribed[ws]
                && queries == old(queries) && resolutions == old(resolutions)
                && sent == [Send(ws, Reply("unsubscribed", msg.sessionId, ""), isOpen)]
      ensures ParseKind(msg.kind) == Some(Query) && msg.prompt == "" ==>
                sent == [Send(ws, Error("prompt required"), isOpen)] && unchanged(this)
      ensures ParseKind(msg.kind) == Some(Query) && msg.prompt != "" && msg.cwd == "" ==>
                sent == [Send(ws, Error("cwd required"), isOpen)] && unchanged(this)
      ensures ParseKind(msg.kind) == Some(Query) && msg.prompt != "" && msg.cwd != "" ==>
                var sid := if msg.sessionId != "" then msg.sessionId else freshId;
                && connections == Added(old(connections), sid, ws)
                && subscribed == old(subscribed)[ws := SetAdd(old(subscribed)[ws], sid)]
                && queries == old(queries) && resolutions == old(resolutions)
                && sent == [Broadcast(connections, sid, Reply("session_status", sid, Running), isOpen),
                            Send(ws, Reply("query_started", sid, ""), isOpen)]
      ensures ParseKind(msg.kind) == Some(Resume) && !svc.sessionExists(msg.sessionId) ==>
                sent == [Send(ws, Error(NotFound), isOpen)] && unchanged(this)
      ensures ParseKind(msg.kind) == Some(Resume) && svc.sessionExists(msg.sessionId) ==>
                connections == Added(old(connections), msg.sessionId, ws)
                && subscribed == old(subscribed)[ws := SetAdd(old(subscribed)[ws], msg.sessionId)]
                && queries == old(queries) && resolutions == old(resolutions)
                && sent == [Send(ws, Reply("session_info", msg.sessionId, ""), isOpen)]
      ensures ParseKind(msg.kind) == Some(Permission) && msg.sessionId !in old(queries) ==>
                sent == [Send(ws, Error("No active query for session"), isOpen)] && unchanged(this)
      ensures ParseKind(msg.kind) == Some(Permission) && msg.sessionId in old(queries)
              && msg.requestId !in old(queries)[msg.sessionId] ==>
                sent == [Send(ws, Error("Permission request not found"), isOpen)] && unchanged(this)
      ensures ParseKind(msg.kind) == Some(Permission) && msg.sessionId in old(queries)
              && msg.requestId in old(queries)[msg.sessionId] ==>
                queries == old(queries)[msg.sessionId := old(queries)[msg.sessionId] - {msg.requestId}]
                && resolutions == old(resolutions) + [(msg.requestId,
                     if msg.decision == "allow" then Allow(msg.updatedInput) else Deny("User denied permission"))]
                && connections == old(connections) && subscribed == old(subscribed)
                && sent == [Broadcast(connections, msg.sessionId, Reply("session_status", msg.sessionId, Running), isOpen),
                            Send(ws, Reply("permission_resolved", msg.sessionId, msg.requestId), isOpen)]
      ensures ParseKind(msg.kind).Some? && ReplyOnly(ParseKind(msg.kind).value) ==>
                sent == [Send(ws, Answer(ParseKind(msg.kind).value, msg, svc), isOpen)] && unchanged(this)
      ensures ParseKind(msg.kind) == None ==>
                sent == [Send(ws, Error("Unknown message type: " + msg.kind), isOpen)] && unchanged(this)
    {
      sent := [];
      match ParseKind(msg.kind)
      case None =>
        sent := [Send(ws, Error("Unknown message type: " + msg.kind), isOpen)];
      case Some(k) =>
        if ReplyOnly(k) {
          sent := [Send(ws, Answer(k, msg, svc), isOpen)];
        } else if k == Kind.Subscribe {
          if msg.sessionId != "" {
            Subscribe(ws, msg.sessionId);
            sent := [Send(ws, Reply("subscribed", msg.sessionId, ""), isOpen)];
          }
        } else if k == Unsubscribe {
          if msg.sessionId != "" {
            WithoutNoDup(subscribed[ws], msg.sessionId);
            subscribed := subscribed[ws := Without(subscribed[ws], msg.sessionId)];
            RemovedKeeps(connections, msg.sessionId, ws);
            connections := Removed(connections, msg.sessionId, ws);
            sent := [Send(ws, Reply("unsubscribed", msg.sessionId, ""), isOpen)];
          }
        } else if k == Query {
          if msg.prompt == "" {
            sent := [Send(ws, Error("prompt required"), isOpen)];
          } else if msg.cwd == "" {
            sent := [Send(ws, Error("cwd required"), isOpen)];
          } else {
            var sid := if msg.sessionId != "" then msg.sessionId else freshId;
            Subscribe(ws, sid);
            sent := [Broadcast(connections, sid, Reply("session_status", sid, Running), isOpen),
                     Send(ws, Reply("query_started", sid, ""), isOpen)];
          }
        } else if k == Resume {
          if !svc.sessionExists(msg.sessionId) {
            sent := [Send(ws, Error(NotFound), isOpen)];
          } else {
            Subscribe(ws, msg.sessionId);
            sent := [Send(ws, Reply("session_info", msg.sessionId, ""), isOpen)];
          }
        } else {
          if msg.sessionId !in queries {
            sent := [Send(ws, Error("No active query for session"), isOpen)];
          } else if msg.requestId !in queries[msg.sessionId] {
            sent := [Send(ws, Error("Permission request not found"), isOpen)];
          } else {
            queries := queries[msg.sessionId := queries[msg.sessionId] - {msg.requestId}];
            var d := if msg.decision == "allow" then Allow(msg.updatedInput) else Deny("User denied permission");
            resolutions := resolutions + [(msg.requestId, d)];
            sent := [Broadcast(connections, msg.sessionId, Reply("session_status", msg.sessionId, Running), isOpen),
                     Send(ws, Reply("permission_resolved", msg.sessionId, msg.requestId), isOpen)];
          }
        }
    }

    /** A closing socket leaves every session it subscribed to. */
    method Close(ws: Socket)
      requires Valid() && ws in subscribed
      modifies this
      ensures Valid() && subscribed == old(subscribed) && queries == old(queries)
      ensures resolutions == old(resolutions)
      ensures connections == RemovedAll(old(connections), subscribed[ws], ws)
      ensures forall s :: s in subscribed[ws] ==> ws !in Followers(connections, s)
      ensures forall s :: s !in subscribed[ws] ==> Followers(connections, s) == Followers(old(connections), s)
    {
      var sessions := subscribed[ws];
      ghost var start := connections;
      for i := 0 to |sessions|
        invariant connections == RemovedAll(start, sessions[..i], ws)
        invariant NoEmptySets(connections)
        invariant subscribed == old(subscribed) && queries == old(queries) && resolutions == old(resolutions)
      {
        assert sessions[..i + 1][..i] == sessions[..i];
        RemovedKeeps(connections, sessions[i], ws);
        connections := Removed(connections, sessions[i], ws);
      }
      assert sessions[..|sessions|] == sessions;
      RemovedAllClears(start, sessions, ws);
    }
  }
}
