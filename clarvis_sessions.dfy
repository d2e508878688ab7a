/**
 * The Clarvis server's session store (clarvis/server/sessions.js): a Map
 * from session id to session record, kept in insertion order, plus the set
 * of working directories seen so far. Ids (`randomUUID`), the clock
 * (`Date.now`), the process directory, the saved sessions on disk and the
 * messages the agent SDK streams back are parameters.
 */
module ClarvisSessions {
  import opened Util
  import M = JsMap

  datatype Status = Idle | Running | Failed   // 'idle', 'running', 'error'

  datatype Role = User | Assistant

  datatype Message = Message(role: Role, content: string, timestamp: int)

  datatype SessionConfig = SessionConfig(
    workingDirectory: string, permissionMode: string, model: string, systemPrompt: Option<string>)

  datatype Session = Session(
    id: string, name: string, status: Status, createdAt: int, lastActivity: int,
    messageCount: int, config: SessionConfig, messages: seq<Message>,
    running: bool,                      // `abortController` is set
    lastError: Option<string>, agentSessionId: Option<string>)

  /** The fields `getAllSessions` lists for each session. */
  datatype Summary = Summary(
    id: string, name: string, status: Status, workingDirectory: string,
    createdAt: int, lastActivity: int, messageCount: int)

  /** The options `createSession` receives; "" stands for an absent or empty option. */
  datatype NewSession = NewSession(
    workingDirectory: string, name: string, permissionMode: string, model: string,
    systemPrompt: Option<string>)

  /** A message of the agent SDK's stream, with the fields the store reads. */
  datatype SdkMessage = SdkMessage(kind: string, subtype: string, sessionId: string, content: string)

  const DefaultMode := "default"
  const DefaultModel := "claude-sonnet-4-5"
  const ForkSuffix := " (fork)"

  /** `value || fallback` for a string. */
  function Or(value: string, fallback: string): (r: string)
    ensures value != "" ==> r == value
    ensures value == "" ==> r == fallback
  {
    if value != "" then value else fallback
  }

  function Summarize(s: Session): (r: Summary)
    ensures r.id == s.id && r.workingDirectory == s.config.workingDirectory
    ensures r.messageCount == s.messageCount && r.status == s.status
  {
    Summary(s.id, s.name, s.status, s.config.workingDirectory, s.createdAt, s.lastActivity, s.messageCount)
  }

  /** The record `createSession` builds. */
  function Created(c: NewSession, id: string, now: int, cwd: string): Session {
    var wd := Or(c.workingDirectory, cwd);
    Session(id, Or(c.name, Basename(wd)), Idle, now, now, 0,
            SessionConfig(wd, Or(c.permissionMode, DefaultMode), Or(c.model, DefaultModel), c.systemPrompt),
            [], false, None, None)
  }

  /** Options left out take their defaults: the directory's name, 'default' and 'claude-sonnet-4-5'. */
  lemma CreatedDefaults(id: string, now: int, cwd: string)
    ensures var s := Created(NewSession("", "", "", "", None), id, now, cwd);
            && s.id == id && s.name == Basename(cwd) && s.status == Idle
            && s.messageCount == 0 && s.messages == [] && !s.running
            && s.config == SessionConfig(cwd, DefaultMode, DefaultModel, None)
  {
  }

  /** The record `forkSession` builds from an existing session. */
  function Forked(original: Session, newId: string, now: int): (r: Session)
    ensures r.id == newId && r.name == original.name + ForkSuffix && r.status == Idle
    ensures r.config == original.config && r.messages == original.messages
    ensures r.messageCount == original.messageCount && !r.running
  {
    Session(newId, original.name + ForkSuffix, Idle, now, now, original.messageCount,
            original.config, original.messages, false, None, None)
  }

  // ---- runPrompt ----

  /** What `runPrompt` sets before the query starts. */
  function Started(s: Session, now: int): (r: Session)
    ensures r.status == Running && r.running
  {
    s.(status := Running, lastActivity := now, running := true)
  }

  /** One streamed message: an init message names the agent session, an assistant message is recorded. */
  function Received(s: Session, m: SdkMessage, now: int): (r: Session)
  {
    var s1 := s.(lastActivity := now);
    var s2 := if m.kind == "system" && m.subtype == "init" then s1.(agentSessionId := Some(m.sessionId)) else s1;
    if m.kind == "assistant" then
      s2.(messageCount := s2.messageCount + 1, messages := s2.messages + [Message(Assistant, m.content, now)])
    else s2
  }

  /** The session after the messages of `stream`, in order. */
  function ReceivedAll(s: Session, stream: seq<SdkMessage>, now: int): Session {
    if |stream| == 0 then s
    else Received(ReceivedAll(s, stream[..|stream| - 1], now), stream[|stream| - 1], now)
  }

  /** The end of `runPrompt`: idle on completion, 'error' with the message on failure, no abort controller. */
  function Finished(s: Session, failure: Option<string>): (r: Session)
    ensures !r.running && r.status != Running
    ensures failure.None? ==> r.status == Idle && r.lastError == s.lastError
    ensures failure.Some? ==> r.status == Failed && r.lastError == failure
  {
    match failure
    case None => s.(status := Idle, running := false)
    case Some(e) => s.(status := Failed, lastError := Some(e), running := false)
  }

  /** The record a whole `runPrompt` leaves: started, fed the stream, finished. */
  function AfterRun(s: Session, stream: seq<SdkMessage>, failure: Option<string>, now: int): Session {
    Finished(ReceivedAll(Started(s, now), stream, now), failure)
  }

  /** The assistant messages of a stream, as the session records them. */
  function AssistantMessages(stream: seq<SdkMessage>, now: int): (r: seq<Message>)
    ensures |r| <= |stream|
  {
    if |stream| == 0 then []
    else (if stream[0].kind == "assistant" then [Message(Assistant, stream[0].content, now)] else [])
         + AssistantMessages(stream[1..], now)
  }

  lemma {:induction false} AssistantMessagesSnoc(stream: seq<SdkMessage>, m: SdkMessage, now: int)
    ensures AssistantMessages(stream + [m], now)
            == AssistantMessages(stream, now) + (if m.kind == "assistant" then [Message(Assistant, m.content, now)] else [])
  {
    if |stream| > 0 {
      assert (stream + [m])[1..] == stream[1..] + [m];
      AssistantMessagesSnoc(stream[1..], m, now);
    }
  }

  /** The stream appends exactly its assistant messages and counts each one. */
  lemma {:induction false} ReceivedAllRecords(s: Session, stream: seq<SdkMessage>, now: int)
    ensures var r := ReceivedAll(s, stream, now);
            && r.messages == s.messages + AssistantMessages(stream, now)
            && r.messageCount == s.messageCount + |AssistantMessages(stream, now)|
            && r.id == s.id && r.config == s.config && r.status == s.status && r.running == s.running
  {
    if |stream| > 0 {
      var init := stream[..|stream| - 1];
      var m := stream[|stream| - 1];
      var before := ReceivedAll(s, init, now);
      assert ReceivedAll(s, stream, now) == Received(before, m, now);
      ReceivedAllRecords(s, init, now);
      AssistantMessagesSnoc(init, m, now);
      assert init + [m] == stream;
      ReceivedOne(before, m, now);
      AppendAssoc(s.messages, AssistantMessages(init, now),
                  if m.kind == "assistant" then [Message(Assistant, m.content, now)] else []);
    }
  }

  /** One message appends its assistant record, if any, and changes nothing else that the lemma above names. */
  lemma ReceivedOne(s: Session, m: SdkMessage, now: int)
    ensures var extra := if m.kind == "assistant" then [Message(Assistant, m.content, now)] else [];
            var r := Received(s, m, now);
            && r.messages == s.messages + extra
            && r.messageCount == s.messageCount + |extra|
            && r.id == s.id && r.config == s.config && r.status == s.status && r.running == s.running
  {
  }

  /** `runPrompt` records each assistant message once and never leaves the session running. */
  lemma RunPromptOutcome(s: Session, stream: seq<SdkMessage>, failure: Option<string>, now: int)
    ensures var r := AfterRun(s, stream, failure, now);
            && r.messages == s.messages + AssistantMessages(stream, now)
            && r.messageCount == s.messageCount + |AssistantMessages(stream, now)|
            && !r.running && r.id == s.id && r.config == s.config
            && (failure.None? ==> r.status == Idle)
            && (failure.Some? ==> r.status == Failed && r.lastError == failure)
  {
    ReceivedAllRecords(Started(s, now), stream, now);
  }

  // ---- initSessions ----

  /** A saved session as it is put back: with no abort controller. */
  function Restored(saved: Session): Session {
    saved.(running := false)
  }

  /** The sessions and directories after loading `saved` in order, skipping ids already present. */
  function Loaded(e: M.Entries<string, Session>, known: set<string>, saved: seq<Session>)
    : (M.Entries<string, Session>, set<string>)
  {
    if |saved| == 0 then (e, known)
    else
      var prev := Loaded(e, known, saved[..|saved| - 1]);
      var s := saved[|saved| - 1];
      if M.Get(prev.0, s.id).Some? then prev
      else (M.Put(prev.0, s.id, Restored(s)), prev.1 + {s.config.workingDirectory})
  }

  /** Loading never replaces a session already present, and leaves every saved id present. */
  lemma {:induction false} LoadedKeeps(e: M.Entries<string, Session>, known: set<string>, saved: seq<Session>)
    ensures forall k :: M.Get(e, k).Some? ==> M.Get(Loaded(e, known, saved).0, k) == M.Get(e, k)
    ensures forall i :: 0 <= i < |saved| ==> M.Get(Loaded(e, known, saved).0, saved[i].id).Some?
    ensures known <= Loaded(e, known, saved).1
  {
    if |saved| > 0 {
      var init := saved[..|saved| - 1];
      LoadedKeeps(e, known, init);
      var prev := Loaded(e, known, init);
      var s := saved[|saved| - 1];
      if M.Get(prev.0, s.id).None? {
        M.PutGet(prev.0, s.id, Restored(s));
      }
      assert forall i :: 0 <= i < |saved| - 1 ==> saved[i] == init[i];
    }
  }

  /** The store's invariant: distinct keys, each the id of the session it maps to. */
  ghost predicate WellKeyed(e: M.Entries<string, Session>) {
    M.Distinct(e) && forall x :: x in e ==> x.1.id == x.0
  }

  lemma PutWellKeyed(e: M.Entries<string, Session>, s: Session)
    requires WellKeyed(e)
    ensures WellKeyed(M.Put(e, s.id, s))
  {
    M.PutKeepsDistinct(e, s.id, s);
    M.PutMembers(e, s.id, s);
  }

  lemma RemoveWellKeyed(e: M.Entries<string, Session>, id: string)
    requires WellKeyed(e)
    ensures WellKeyed(M.Remove(e, id))
  {
    M.RemoveKeepsDistinct(e, id);
  }

  /** A well-keyed store maps each present id to a session with that id. */
  lemma GetWellKeyed(e: M.Entries<string, Session>, id: string)
    requires WellKeyed(e) && M.Get(e, id).Some?
    ensures M.Get(e, id).value.id == id
  {
  }

  lemma {:induction false} LoadedWellKeyed(e: M.Entries<string, Session>, known: set<string>, saved: seq<Session>)
    requires WellKeyed(e)
    ensures WellKeyed(Loaded(e, known, saved).0)
  {
    if |saved| > 0 {
      LoadedWellKeyed(e, known, saved[..|saved| - 1]);
      var prev := Loaded(e, known, saved[..|saved| - 1]);
      var s := saved[|saved| - 1];
      if M.Get(prev.0, s.id).None? {
        PutWellKeyed(prev.0, Restored(s));
      }
    }
  }

  /** The module's `sessions` Map and `knownDirectories` Set. */
  class Store {
    var sessions: M.Entries<string, Session>
    var knownDirectories: set<string>

    ghost predicate Valid()
      reads this
    {
      WellKeyed(sessions)
    }

    constructor()
      ensures Valid() && sessions == [] && knownDirectories == {}
    {
      sessions := [];
      knownDirectories := {};
    }

    /** `getAllSessions`: every session, in insertion order, cut down to its summary. */
    function GetAllSessions(): (r: seq<Summary>)
      reads this
      ensures |r| == |sessions|
      ensures forall i :: 0 <= i < |r| ==> r[i] == Summarize(sessions[i].1)
    {
      seq(|sessions|, i requires 0 <= i < |sessions| reads this => Summarize(sessions[i].1))
    }

    /** `getSession` */
    function GetSession(id: string): (r: Option<Session>)
      reads this
      requires Valid()
      ensures r.Some? ==> r.value.id == id
      ensures r == M.Get(sessions, id)
    {
      var r := M.Get(sessions, id);
      if r.Some? then GetWellKeyed(sessions, id); r else r
    }

    /** `initSessions`: saved sessions whose ids are new are added in order; the count of saved sessions is returned. */
    method InitSessions(workingDirectory: string, processCwd: string, saved: seq<Session>) returns (count: nat)
      requires Valid()
      modifies this
      ensures Valid() && count == |saved|
      ensures (sessions, knownDirectories)
              == Loaded(old(sessions), old(knownDirectories) + {Or(workingDirectory, processCwd)}, saved)
    {
      var cwd := Or(workingDirectory, processCwd);
      knownDirectories := knownDirectories + {cwd};
      ghost var start := sessions;
      ghost var known := knownDirectories;
      for i := 0 to |saved|
        invariant (sessions, knownDirectories) == Loaded(start, known, saved[..i])
        invariant WellKeyed(sessions)
      {
        assert saved[..i + 1][..i] == saved[..i];
        var s := saved[i];
        if M.Get(sessions, s.id).None? {
          PutWellKeyed(sessions, Restored(s));
          sessions := M.Put(sessions, s.id, Restored(s));
          knownDirectories := knownDirectories + {s.config.workingDirectory};
        }
      }
      assert saved[..|saved|] == saved;
      count := |saved|;
    }

    /** `createSession` with `id` as the fresh UUID and `now` as the clock. */
    method CreateSession(c: NewSession, id: string, now: int, cwd: string) returns (s: Session)
      requires Valid()
      modifies this
      ensures Valid()
      ensures s == Created(c, id, now, cwd)
      ensures sessions == M.Put(old(sessions), id, s)
      ensures knownDirectories == old(knownDirectories) + {s.config.workingDirectory}
    {
      s := Created(c, id, now, cwd);
      PutWellKeyed(sessions, s);
      sessions := M.Put(sessions, id, s);
      knownDirectories := knownDirectories + {s.config.workingDirectory};
    }

    /** `deleteSession`: false for an unknown id, otherwise the session goes. */
    method DeleteSession(id: string) returns (ok: bool)
      requires Valid()
      modifies this
      ensures Valid()
      ensures ok <==> M.Get(old(sessions), id).Some?
      ensures sessions == M.Remove(old(sessions), id) && M.Get(sessions, id).None?
      ensures knownDirectories == old(knownDirectories)
    {
      ok := M.Get(sessions, id).Some?;
      if !ok {
        M.RemoveAbsent(sessions, id);
      }
      RemoveWellKeyed(sessions, id);
      sessions := M.Remove(sessions, id);
    }

    /**
     * `runPrompt`: an unknown id throws before anything is yielded;
     * otherwise the session runs the stream of messages, each of which is
     * yielded, and ends idle, or in error when the query raises `failure`
     * after the stream, which is then rethrown. `yielded` is what the
     * generator gave its consumer and `thrown` the error it ended with.
     */
    method RunPrompt(id: string, stream: seq<SdkMessage>, failure: Option<string>, now: int)
      returns (yielded: seq<SdkMessage>, thrown: Option<string>)
      requires Valid()
      modifies this
      ensures Valid() && knownDirectories == old(knownDirectories)
      ensures M.Get(old(sessions), id).None? ==>
                yielded == [] && thrown == Some("Session " + id + " not found") && sessions == old(sessions)
      ensures M.Get(old(sessions), id).Some? ==>
                sessions == M.Put(old(sessions), id, AfterRun(M.Get(old(sessions), id).value, stream, failure, now))
                && yielded == stream && thrown == failure
    {
      var found := M.Get(sessions, id);
      if found.None? {
        return [], Some("Session " + id + " not found");
      }
      GetWellKeyed(sessions, id);
      var s := Started(found.value, now);
      yielded := [];
      for i := 0 to |stream|
        invariant s == ReceivedAll(Started(found.value, now), stream[..i], now)
        invariant yielded == stream[..i]
      {
        assert stream[..i + 1][..i] == stream[..i];
        s := Received(s, stream[i], now);
        yielded := yielded + [stream[i]];
      }
      assert stream[..|stream|] == stream;
      s := Finished(s, failure);
      ReceivedAllRecords(Started(found.value, now), stream, now);
      PutWellKeyed(sessions, s);
      sessions := M.Put(sessions, id, s);
      thrown := failure;
    }

    /** `addUserMessage`: none for an unknown id, otherwise one more user message. */
    method AddUserMessage(id: string, content: string, now: int) returns (r: Option<Message>)
      requires Valid()
      modifies this
      ensures Valid() && knownDirectories == old(knownDirectories)
      ensures r.None? <==> M.Get(old(sessions), id).None?
      ensures r.None? ==> sessions == old(sessions)
      ensures r.Some? ==>
                var s := M.Get(old(sessions), id).value;
                && r.value == Message(User, content, now)
                && sessions == M.Put(old(sessions), id,
                     s.(messages := s.messages + [r.value], messageCount := s.messageCount + 1, lastActivity := now))
    {
      var found := M.Get(sessions, id);
      if found.None? {
        return None;
      }
      GetWellKeyed(sessions, id);
      var s := found.value;
      var m := Message(User, content, now);
      var updated := s.(messages := s.messages + [m], messageCount := s.messageCount + 1, lastActivity := now);
      PutWellKeyed(sessions, updated);
      sessions := M.Put(sessions, id, updated);
      r := Some(m);
    }

    /** `interruptSession`: only a session with a running query can be interrupted, and it becomes idle. */
    method InterruptSession(id: string) returns (ok: bool)
      requires Valid()
      modifies this
      ensures Valid() && knownDirectories == old(knownDirectories)
      ensures ok <==> M.Get(old(sessions), id).Some? && M.Get(old(sessions), id).value.running
      ensures !ok ==> sessions == old(sessions)
      ensures ok ==> sessions == M.Put(old(sessions), id, M.Get(old(sessions), id).value.(status := Idle))
    {
      var found := M.Get(sessions, id);
      if found.None? || !found.value.running {
        return false;
      }
      GetWellKeyed(sessions, id);
      var updated := found.value.(status := Idle);
      PutWellKeyed(sessions, updated);
      sessions := M.Put(sessions, id, updated);
      ok := true;
    }

    /** `forkSession` with `newId` as the fresh UUID: an unknown id fails. */
    method ForkSession(id: string, newId: string, now: int) returns (r: Result<Session>)
      requires Valid()
      modifies this
      ensures Valid() && knownDirectories == old(knownDirectories)
      ensures M.Get(old(sessions), id).None? ==>
                r == Err("Session " + id + " not found") && sessions == old(sessions)
      ensures M.Get(old(sessions), id).Some? ==>
                r == Ok(Forked(M.Get(old(sessions), id).value, newId, now))
                && sessions == M.Put(old(sessions), newId, r.value)
    {
      var found := M.Get(sessions, id);
      if found.None? {
        return Err("Session " + id + " not found");
      }
      var forked := Forked(found.value, newId, now);
      PutWellKeyed(sessions, forked);
      sessions := M.Put(sessions, newId, forked);
      r := Ok(forked);
    }
  }

  /** Forking under a fresh id leaves the original session as it was. */
  lemma ForkKeepsOriginal(e: M.Entries<string, Session>, id: string, newId: string, now: int)
    requires M.Get(e, id).Some? && newId != id
    ensures var after := M.Put(e, newId, Forked(M.Get(e, id).value, newId, now));
            && M.Get(after, id) == M.Get(e, id)
            && M.Get(after, newId) == Some(Forked(M.Get(e, id).value, newId, now))
  {
    M.PutGet(e, newId, Forked(M.Get(e, id).value, newId, now));
  }
}
