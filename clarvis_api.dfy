/**
 * The Clarvis server's REST API (clarvis/server/api.js): a request's path
 * and method select a route, the route's handler calls the session store or
 * the permission registry and answers with a status and a JSON payload, and
 * some routes broadcast a notice to WebSocket clients. The request body is
 * the text received; `JSON.parse` is a parameter.
 */
module ClarvisApi {
  import opened Util
  import M = JsMap
  import S = ClarvisSessions
  import P = ClarvisPermissions

  const SessionsPath := "/api/sessions"
  const SessionsPrefix := "/api/sessions/"
  const PromptSuffix := "/prompt"
  const InterruptSuffix := "/interrupt"
  const PermissionPrefix := "/api/permission/"
  const MaxResult := 5000
  const TruncatedMarker := "\n... (truncated)"

  datatype Route =
    | ListSessions
    | CreateSession
    | GetSession(id: string)
    | DeleteSession(id: string)
    | Prompt(id: string)
    | Interrupt(id: string)
    | Permission(requestId: string)
    | NoRoute

  /**
   * The id a pattern `^<prefix>([^/]+)<suffix>$` captures: a non-empty
   * segment without '/' between the prefix and the suffix.
   */
  function Segment(path: string, prefix: string, suffix: string): (r: Option<string>)
    ensures r.Some? ==> r.value != "" && '/' !in r.value && path == prefix + r.value + suffix
  {
    if |path| > |prefix| + |suffix| && StartsWith(path, prefix) && EndsWith(path, suffix) then
      var id := path[|prefix|..|path| - |suffix|];
      assert path == path[..|prefix|] + id + path[|path| - |suffix|..];
      if '/' !in id then Some(id) else None
    else None
  }

  /** Every segment without '/' is captured. */
  lemma SegmentOf(prefix: string, id: string, suffix: string)
    requires id != "" && '/' !in id
    ensures Segment(prefix + id + suffix, prefix, suffix) == Some(id)
  {
    var path := prefix + id + suffix;
    assert path[..|prefix|] == prefix;
    assert path[|path| - |suffix|..] == suffix;
    assert path[|prefix|..|path| - |suffix|] == id;
  }

  /** A segment followed by more of the path, after a '/', is not captured. */
  lemma SegmentStopsAtSlash(prefix: string, id: string, rest: string)
    ensures Segment(prefix + id + "/" + rest, prefix, "").None?
  {
    var path := prefix + id + "/" + rest;
    assert path[|prefix|..|path| - 0][|id|] == '/';
  }

  /** The route `handleApiRequest` takes, tried in the order of the source. */
  function RouteOf(path: string, httpMethod: string): (r: Route)
    ensures r.GetSession? ==> httpMethod == "GET" && Segment(path, SessionsPrefix, "") == Some(r.id)
    ensures r.DeleteSession? ==> httpMethod == "DELETE" && Segment(path, SessionsPrefix, "") == Some(r.id)
    ensures r.Prompt? ==> httpMethod == "POST" && Segment(path, SessionsPrefix, PromptSuffix) == Some(r.id)
    ensures r.Interrupt? ==> httpMethod == "POST" && Segment(path, SessionsPrefix, InterruptSuffix) == Some(r.id)
    ensures r.Permission? ==> httpMethod == "POST" && Segment(path, PermissionPrefix, "") == Some(r.requestId)
    ensures r.ListSessions? ==> path == SessionsPath && httpMethod == "GET"
    ensures r.CreateSession? ==> path == SessionsPath && httpMethod == "POST"
  {
    var session := Segment(path, SessionsPrefix, "");
    var prompt := Segment(path, SessionsPrefix, PromptSuffix);
    var interrupt := Segment(path, SessionsPrefix, InterruptSuffix);
    var permission := Segment(path, PermissionPrefix, "");
    if path == SessionsPath && httpMethod == "GET" then ListSessions
    else if path == SessionsPath && httpMethod == "POST" then CreateSession
    else if session.Some? && httpMethod == "GET" then GetSession(session.value)
    else if session.Some? && httpMethod == "DELETE" then DeleteSession(session.value)
    else if prompt.Some? && httpMethod == "POST" then Prompt(prompt.value)
    else if interrupt.Some? && httpMethod == "POST" then Interrupt(interrupt.value)
    else if permission.Some? && httpMethod == "POST" then Permission(permission.value)
    else NoRoute
  }

  /** A method other than GET, POST and DELETE matches no route. */
  lemma OtherMethodNoRoute(path: string, httpMethod: string)
    requires httpMethod != "GET" && httpMethod != "POST" && httpMethod != "DELETE"
    ensures RouteOf(path, httpMethod) == NoRoute
  {
  }

  /** `/api/sessions/<id>` reads or deletes that session, for any id without '/'. */
  lemma SessionRoutes(id: string)
    requires id != "" && '/' !in id
    ensures RouteOf(SessionsPrefix + id, "GET") == GetSession(id)
    ensures RouteOf(SessionsPrefix + id, "DELETE") == DeleteSession(id)
  {
    SegmentOf(SessionsPrefix, id, "");
    assert SessionsPrefix + id + "" == SessionsPrefix + id;
    assert |SessionsPrefix + id| > |SessionsPath|;
  }

  /** `/api/sessions/<id>/prompt` is the prompt route and not a session route. */
  lemma PromptRoute(id: string)
    requires id != "" && '/' !in id
    ensures RouteOf(SessionsPrefix + id + PromptSuffix, "POST") == Prompt(id)
  {
    var path := SessionsPrefix + id + PromptSuffix;
    SegmentOf(SessionsPrefix, id, PromptSuffix);
    assert path == SessionsPrefix + id + "/" + "prompt";
    SegmentStopsAtSlash(SessionsPrefix, id, "prompt");
    assert |path| > |SessionsPath|;
  }

  /** `/api/sessions/<id>/interrupt` is the interrupt route. */
  lemma InterruptRoute(id: string)
    requires id != "" && '/' !in id
    ensures RouteOf(SessionsPrefix + id + InterruptSuffix, "POST") == Interrupt(id)
  {
    var path := SessionsPrefix + id + InterruptSuffix;
    SegmentOf(SessionsPrefix, id, InterruptSuffix);
    assert path == SessionsPrefix + id + "/" + "interrupt";
    SegmentStopsAtSlash(SessionsPrefix, id, "interrupt");
    assert path[|path| - |PromptSuffix|..][0] == 't' && PromptSuffix[0] == '/';
    assert |path| > |SessionsPath|;
  }

  /** `/api/permission/<requestId>` answers a permission request. */
  lemma PermissionRoute(requestId: string)
    requires requestId != "" && '/' !in requestId
    ensures RouteOf(PermissionPrefix + requestId, "POST") == Permission(requestId)
  {
    var path := PermissionPrefix + requestId;
    SegmentOf(PermissionPrefix, requestId, "");
    assert path + "" == path;
    assert path[..|SessionsPrefix|] != SessionsPrefix by {
      assert path[5] == 'p' && SessionsPrefix[5] == 's';
    }
    assert path != SessionsPath by {
      assert path[5] != SessionsPath[5];
    }
  }

  /** A tool's result: a string, or any other JSON value, carried as its text. */
  datatype ToolResult = Text(text: string) | Other(json: string)

  /** `truncateResult`: a string longer than 5000 characters is cut to 5000 and marked. */
  function TruncateResult(result: ToolResult): (r: ToolResult)
    ensures result.Other? ==> r == result
    ensures result.Text? && |result.text| <= MaxResult ==> r == result
    ensures result.Text? && |result.text| > MaxResult ==>
              r.Text? && |r.text| == MaxResult + |TruncatedMarker|
              && r.text[..MaxResult] == result.text[..MaxResult] && EndsWith(r.text, TruncatedMarker)
  {
    match result
    case Text(s) =>
      if |s| > MaxResult then
        var t := s[..MaxResult] + TruncatedMarker;
        assert t[..MaxResult] == s[..MaxResult];
        assert t[|t| - |TruncatedMarker|..] == TruncatedMarker;
        Text(t)
      else result
    case Other(_) => result
  }

  /** Truncating twice gives what truncating once gives. */
  lemma TruncateIdempotent(result: ToolResult)
    ensures TruncateResult(TruncateResult(result)) == TruncateResult(result)
  {
    var once := TruncateResult(result);
    if result.Text? && |result.text| > MaxResult {
      assert once.text[..MaxResult] == result.text[..MaxResult];
    }
  }

  /** The fields of a request body the handlers read; "" stands for absent or falsy. */
  datatype Body = Body(prompt: string, decision: string, updatedInput: Option<string>, session: S.NewSession)

  const EmptyBody := Body("", "", None, S.NewSession("", "", "", "", None))

  /**
   * `readBody`: the received text parsed as JSON; an empty text is `{}`, and
   * a text `JSON.parse` rejects (`None`) gives `{}` as well.
   */
  function ReadBody(data: string, parse: string -> Option<Body>): (b: Body)
    ensures data == "" ==> b == EmptyBody
    ensures data != "" && parse(data).None? ==> b == EmptyBody
    ensures data != "" && parse(data).Some? ==> b == parse(data).value
  {
    if data == "" then EmptyBody
    else match parse(data)
      case None => EmptyBody
      case Some(body) => body
  }

  /** The JSON payload of a response. */
  datatype Payload =
    | Sessions(list: seq<S.Summary>)
    | Summary(summary: S.Summary)
    | Detail(summary: S.Summary, messages: seq<S.Message>, config: S.SessionConfig)
    | Success(success: bool)
    | Status(status: string)
    | Error(error: string)

  datatype Response = Response(status: int, payload: Payload)

  /** A WebSocket notice a handler sends: to every client, or to a session's clients. */
  datatype Notice = ToAll(kind: string, sessionId: string) | ToSession(sessionId: string, kind: string, detail: string)

  const SessionNotFound := Error("Session not found")

  /** The status strings of the store's session states. */
  function StatusName(s: S.Status): (r: string)
    ensures r != ""
  {
    match s
    case Idle => "idle"
    case Running => "running"
    case Failed => "error"
  }

  /** The notice `runPromptAsync` broadcasts for one message of the stream, if any. */
  function NoticeOf(id: string, m: S.SdkMessage): (r: Option<Notice>)
    ensures r.Some? ==> r.value.ToSession? && r.value.sessionId == id
    ensures r.None? <==> !(m.kind == "system" && m.subtype == "init") && m.kind != "assistant"
                         && m.kind != "tool_call" && m.kind != "tool_result" && m.kind != "error"
  {
    if m.kind == "system" then
      if m.subtype == "init" then Some(ToSession(id, "session:init", m.sessionId)) else None
    else if m.kind == "assistant" then Some(ToSession(id, "message:assistant", m.content))
    else if m.kind == "tool_call" then Some(ToSession(id, "tool:start", m.content))
    else if m.kind == "tool_result" then Some(ToSession(id, "tool:result", TruncateResult(Text(m.content)).text))
    else if m.kind == "error" then Some(ToSession(id, "error", m.content))
    else None
  }

  /** The notices for a stream of messages, in order. */
  function NoticesOf(id: string, stream: seq<S.SdkMessage>): (r: seq<Notice>)
    ensures |r| <= |stream|
  {
    if |stream| == 0 then []
    else
      var rest := NoticesOf(id, stream[..|stream| - 1]);
      match NoticeOf(id, stream[|stream| - 1])
      case None => rest
      case Some(n) => rest + [n]
  }

  /** Every notice of a run goes to the session that runs. */
  lemma {:induction false} NoticesOfSession(id: string, stream: seq<S.SdkMessage>)
    ensures forall n :: n in NoticesOf(id, stream) ==> n.ToSession? && n.sessionId == id
  {
    if |stream| > 0 {
      NoticesOfSession(id, stream[..|stream| - 1]);
    }
  }

  /** What the prompt route answers, broadcasts and does to the store. */
  ghost predicate PromptAnswered(before: M.Entries<string, S.Session>, after: M.Entries<string, S.Session>,
                                 id: string, prompt: string, now: int, stream: seq<S.SdkMessage>,
                                 failure: Option<string>, res: Response, notices: seq<Notice>)
  {
    && (M.Get(before, id).None? ==>
          res == Response(404, SessionNotFound) && notices == [] && after == before)
    && (M.Get(before, id).Some? && prompt == "" ==>
          res == Response(400, Error("prompt required")) && notices == [] && after == before)
    && (M.Get(before, id).Some? && prompt != "" ==>
          var s := M.Get(before, id).value;
          var withUser := s.(messages := s.messages + [S.Message(S.User, prompt, now)],
                             messageCount := s.messageCount + 1, lastActivity := now);
          && res == Response(202, Status("running"))
          && after == M.Put(M.Put(before, id, withUser), id, S.AfterRun(withUser, stream, failure, now))
          && |notices| >= 3
          && notices[..2] == [ToSession(id, "message:user", prompt), ToSession(id, "session:status", "running")]
          && notices[|notices| - 1].kind == "session:status")
  }

  /** The prompt route: 404 for an unknown session, 400 without a prompt, else 202 and the run. */
  method PostPrompt(store: S.Store, id: string, prompt: string, now: int, stream: seq<S.SdkMessage>,
                    failure: Option<string>)
    returns (res: Response, notices: seq<Notice>)
    requires store.Valid()
    modifies store
    ensures store.Valid()
    ensures PromptAnswered(old(store.sessions), store.sessions, id, prompt, now, stream, failure, res, notices)
  {
    notices := [];
    var found := store.GetSession(id);
    if found.None? {
      res := Response(404, SessionNotFound);
    } else if prompt == "" {
      res := Response(400, Error("prompt required"));
    } else {
      ghost var before := store.sessions;
      ghost var s := found.value;
      ghost var withUser := s.(messages := s.messages + [S.Message(S.User, prompt, now)],
                               messageCount := s.messageCount + 1, lastActivity := now);
      var message := store.AddUserMessage(id, prompt, now);
      assert store.sessions == M.Put(before, id, withUser);
      M.PutGet(before, id, withUser);
      var run := RunPromptAsync(store, id, stream, failure, now);
      assert store.sessions == M.Put(M.Put(before, id, withUser), id, S.AfterRun(withUser, stream, failure, now));
      var first := ToSession(id, "message:user", prompt);
      notices := [first] + run;
      assert notices[..2] == [first, run[0]];
      assert notices[|notices| - 1] == run[|run| - 1];
      res := Response(202, Status("running"));
    }
  }

  /**
   * `handleApiRequest`: the route's handler, with `data` the request body's
   * text, `newId`, `now` and `cwd` the id, clock and working directory a new
   * session takes, and `stream` and `failure` what the agent produces for a
   * prompt, which `runPromptAsync` runs after the 202 answer.
   */
  method HandleApiRequest(path: string, httpMethod: string, data: string, parse: string -> Option<Body>,
                          store: S.Store, perms: P.Permissions, newId: string, now: int, cwd: string,
                          stream: seq<S.SdkMessage>, failure: Option<string>)
    returns (res: Response, notices: seq<Notice>)
    requires store.Valid() && perms.Valid()
    modifies store, perms
    ensures store.Valid() && perms.Valid()
    ensures var body := ReadBody(data, parse);
      match RouteOf(path, httpMethod)
      case ListSessions =>
        res == Response(200, Sessions(old(store.GetAllSessions()))) && notices == []
        && store.sessions == old(store.sessions)
      case CreateSession =>
        var s := S.Created(body.session, newId, now, cwd);
        res == Response(201, Summary(S.Summarize(s))) && notices == [ToAll("session:created", newId)]
        && store.sessions == M.Put(old(store.sessions), newId, s)
      case GetSession(id) =>
        var found := M.Get(old(store.sessions), id);
        && store.sessions == old(store.sessions) && notices == []
        && (found.None? ==> res == Response(404, SessionNotFound))
        && (found.Some? ==> res == Response(200, Detail(S.Summarize(found.value), found.value.messages,
                                                         found.value.config)))
      case DeleteSession(id) =>
        && store.sessions == M.Remove(old(store.sessions), id)
        && (M.Get(old(store.sessions), id).None? ==> res == Response(404, SessionNotFound) && notices == [])
        && (M.Get(old(store.sessions), id).Some? ==>
              res == Response(200, Success(true)) && notices == [ToAll("session:deleted", id)])
      case Prompt(id) =>
        PromptAnswered(old(store.sessions), store.sessions, id, body.prompt, now, stream, failure, res, notices)
      case Interrupt(id) =>
        var found := M.Get(old(store.sessions), id);
        var stopped := found.Some? && found.value.running;
        && notices == []
        && res == Response(200, Success(stopped))
        && store.sessions == (if stopped then M.Put(old(store.sessions), id, found.value.(status := S.Idle))
                              else old(store.sessions))
      case Permission(requestId) =>
        var handled := M.Get(old(perms.pending), requestId).Some?;
        var body := ReadBody(data, parse);
        && notices == [] && store.sessions == old(store.sessions)
        && res == Response(if handled then 200 else 404, Success(handled))
        && (handled ==> perms.pending == M.Remove(old(perms.pending), requestId)
                        && perms.resolved == old(perms.resolved)
                           + [(requestId, if body.decision == "allow" then P.Allow(P.EditedInput(body.updatedInput))
                                          else P.Deny(P.DeniedByUser))])
        && (!handled ==> perms.pending == old(perms.pending) && perms.resolved == old(perms.resolved))
      case NoRoute =>
        res == Response(404, Error("Not found")) && notices == [] && store.sessions == old(store.sessions)
    ensures !RouteOf(path, httpMethod).Permission? ==>
              perms.pending == old(perms.pending) && perms.resolved == old(perms.resolved)
  {
    var route := RouteOf(path, httpMethod);
    notices := [];
    match route
    case ListSessions =>
      res := Response(200, Sessions(store.GetAllSessions()));
    case CreateSession =>
      var body := ReadBody(data, parse);
      var s := store.CreateSession(body.session, newId, now, cwd);
      notices := [ToAll("session:created", newId)];
      res := Response(201, Summary(S.Summarize(s)));
    case GetSession(id) =>
      var found := store.GetSession(id);
      if found.None? {
        res := Response(404, SessionNotFound);
      } else {
        var s := found.value;
        res := Response(200, Detail(S.Summarize(s), s.messages, s.config));
      }
    case DeleteSession(id) =>
      var deleted := store.DeleteSession(id);
      if !deleted {
        res := Response(404, SessionNotFound);
      } else {
        notices := [ToAll("session:deleted", id)];
        res := Response(200, Success(true));
      }
    case Prompt(id) =>
      res, notices := PostPrompt(store, id, ReadBody(data, parse).prompt, now, stream, failure);
    case Interrupt(id) =>
      var success := store.InterruptSession(id);
      res := Response(200, Success(success));
    case Permission(requestId) =>
      var body := ReadBody(data, parse);
      var success := perms.HandlePermissionResponse(requestId, body.decision, body.updatedInput);
      res := Response(if success then 200 else 404, Success(success));
    case NoRoute =>
      res := Response(404, Error("Not found"));
  }

  /**
   * `runPromptAsync`: nothing for an unknown session; otherwise a running
   * status, the notices of the stream, an error notice when the run fails,
   * and the session's final status.
   */
  method RunPromptAsync(store: S.Store, id: string, stream: seq<S.SdkMessage>, failure: Option<string>, now: int)
    returns (notices: seq<Notice>)
    requires store.Valid()
    modifies store
    ensures store.Valid()
    ensures M.Get(old(store.sessions), id).None? ==> notices == [] && store.sessions == old(store.sessions)
    ensures M.Get(old(store.sessions), id).Some? ==>
              var after := S.AfterRun(M.Get(old(store.sessions), id).value, stream, failure, now);
              && store.sessions == M.Put(old(store.sessions), id, after)
              && notices == [ToSession(id, "session:status", "running")] + NoticesOf(id, stream)
                            + (if failure.Some? then [ToSession(id, "error", failure.value)] else [])
                            + [ToSession(id, "session:status", StatusName(after.status))]
    ensures M.Get(old(store.sessions), id).Some? ==>
              |notices| >= 2 && notices[0] == ToSession(id, "session:status", "running")
              && notices[|notices| - 1].kind == "session:status"
  {
    var found := store.GetSession(id);
    if found.None? {
      return [];
    }
    notices := [ToSession(id, "session:status", "running")];
    var yielded, thrown := store.RunPrompt(id, stream, failure, now);
    notices := notices + NoticesOf(id, yielded);
    if thrown.Some? {
      notices := notices + [ToSession(id, "error", thrown.value)];
    }
    ghost var after := S.AfterRun(found.value, stream, failure, now);
    M.PutGet(old(store.sessions), id, after);
    var final := store.GetSession(id);
    assert final == Some(after);
    notices := notices + [ToSession(id, "session:status", StatusName(final.value.status))];
  }
}
