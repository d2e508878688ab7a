/**
 * The browser client's shared state (clarvis/public/js/state.js): the
 * session list, the active session and its messages, the UI toggles, and the
 * listeners notified after each change. Listeners are identified by number;
 * what a listener does, and whether it throws, is outside this model.
 */
module ClarvisState {
  import opened Util

  /** A message as the client shows it. */
  datatype ChatMessage = ChatMessage(role: string, content: string)

  datatype Config = Config(workingDirectory: string, model: string, permissionMode: string)

  /** A session object of `state.sessions`; `messages` is `None` while the property is unset. */
  datatype ClientSession = ClientSession(
    id: string, name: string, status: string, config: Config, messages: Option<seq<ChatMessage>>)

  /** The properties an `updateSession` call assigns; `None` leaves a property as it is. */
  datatype Update = Update(name: Option<string>, status: Option<string>, config: Option<Config>)

  const InitialConfig := Config("", "claude-sonnet-4-5", "default")

  /** `sessions.find(s => s.id === id)`, as the index of the first match. */
  function Find(sessions: seq<ClientSession>, id: string): (r: Option<nat>)
    ensures r.None? <==> forall i :: 0 <= i < |sessions| ==> sessions[i].id != id
    ensures r.Some? ==> r.value < |sessions| && sessions[r.value].id == id
                        && forall i :: 0 <= i < r.value ==> sessions[i].id != id
  {
    if |sessions| == 0 then None
    else if sessions[0].id == id then Some(0)
    else match Find(sessions[1..], id)
      case None => None
      case Some(k) => Some(k + 1)
  }

  /** `sessions.filter(s => s.id !== id)` */
  function Filtered(sessions: seq<ClientSession>, id: string): (r: seq<ClientSession>)
    ensures forall s :: s in r <==> s in sessions && s.id != id
    ensures |r| <= |sessions|
  {
    if |sessions| == 0 then []
    else if sessions[0].id == id then Filtered(sessions[1..], id)
    else [sessions[0]] + Filtered(sessions[1..], id)
  }

  /** Filtering keeps the order of the sessions it keeps: filtering a concatenation filters each part. */
  lemma {:induction false} FilteredAppend(a: seq<ClientSession>, b: seq<ClientSession>, id: string)
    ensures Filtered(a + b, id) == Filtered(a, id) + Filtered(b, id)
  {
    if |a| > 0 {
      assert (a + b)[1..] == a[1..] + b;
      FilteredAppend(a[1..], b, id);
    } else {
      assert a + b == b;
    }
  }

  /** The active id after removing `id`: unchanged unless it was `id`, else the first remaining session's, or null. */
  function NextActive(remaining: seq<ClientSession>, active: Option<string>, id: string): (r: Option<string>)
  {
    if active == Some(id) then
      if |remaining| > 0 && remaining[0].id != "" then Some(remaining[0].id) else None
    else active
  }

  /** After `removeSession(id)` the removed id is never the active one. */
  lemma RemovedNotActive(sessions: seq<ClientSession>, active: Option<string>, id: string)
    ensures active == Some(id) ==> NextActive(Filtered(sessions, id), active, id) != Some(id)
    ensures active != Some(id) ==> NextActive(Filtered(sessions, id), active, id) == active
  {
    var r := Filtered(sessions, id);
    if active == Some(id) && |r| > 0 {
      assert r[0] in r;
    }
  }

  /** `Object.assign(session, updates)` */
  function Assigned(s: ClientSession, u: Update): (r: ClientSession)
    ensures r.id == s.id && r.messages == s.messages
    ensures r.name == (if u.name.Some? then u.name.value else s.name)
    ensures r.status == (if u.status.Some? then u.status.value else s.status)
    ensures r.config == (if u.config.Some? then u.config.value else s.config)
  {
    s.(name := if u.name.Some? then u.name.value else s.name,
       status := if u.status.Some? then u.status.value else s.status,
       config := if u.config.Some? then u.config.value else s.config)
  }

  /** Pushing `m` onto a session's messages, creating the array first when unset. */
  function Pushed(s: ClientSession, m: ChatMessage): (r: ClientSession)
    ensures r.messages.Some? && r.id == s.id && r.name == s.name && r.config == s.config
    ensures r.messages.value == (if s.messages.Some? then s.messages.value else []) + [m]
  {
    s.(messages := Some((if s.messages.Some? then s.messages.value else []) + [m]))
  }

  /** The module's `state` object and its listener `Set`, with the number of `notify` calls made. */
  class State {
    var sessions: seq<ClientSession>
    var activeSessionId: Option<string>
    var messages: seq<ChatMessage>
    var currentTool: Option<string>
    var pendingPermission: Option<string>
    var config: Config
    var sidebarOpen: bool
    var configPanelOpen: bool
    var listeners: seq<nat>
    var notifications: nat

    ghost predicate Valid()
      reads this
    {
      NoDup(listeners)
    }

    constructor()
      ensures Valid() && sessions == [] && activeSessionId == None && messages == []
      ensures currentTool == None && pendingPermission == None && config == InitialConfig
      ensures !sidebarOpen && !configPanelOpen && listeners == [] && notifications == 0
    {
      sessions := [];
      activeSessionId := None;
      messages := [];
      currentTool := None;
      pendingPermission := None;
      config := InitialConfig;
      sidebarOpen := false;
      configPanelOpen := false;
      listeners := [];
      notifications := 0;
    }

    /** `subscribe(fn)`: the listener is added once; calling the returned remover is `Unsubscribe(fn)`. */
    method Subscribe(fn: nat)
      requires Valid()
      modifies this
      ensures Valid() && listeners == SetAdd(old(listeners), fn) && fn in listeners
      ensures sessions == old(sessions) && notifications == old(notifications)
    {
      listeners := SetAdd(listeners, fn);
    }

    /** The remover `subscribe` returns: `listeners.delete(fn)`, true when it was there. */
    method Unsubscribe(fn: nat) returns (removed: bool)
      requires Valid()
      modifies this
      ensures Valid() && listeners == Without(old(listeners), fn) && fn !in listeners
      ensures removed <==> fn in old(listeners)
      ensures sessions == old(sessions) && notifications == old(notifications)
    {
      removed := fn in listeners;
      WithoutNoDup(listeners, fn);
      listeners := Without(listeners, fn);
    }

    /**
     * `notify`: every listener is called in the Set's order; a listener that
     * throws (`throws`) is logged (`logged`) and the loop goes on with the next one.
     */
    method Notify(throws: nat -> bool) returns (called: seq<nat>, logged: seq<nat>)
      modifies this
      ensures called == listeners && notifications == old(notifications) + 1
      ensures forall fn :: fn in logged <==> fn in listeners && throws(fn)
      ensures sessions == old(sessions) && activeSessionId == old(activeSessionId)
    {
      called, logged := [], [];
      for i := 0 to |listeners|
        invariant called == listeners[..i]
        invariant forall fn :: fn in logged <==> fn in listeners[..i] && throws(fn)
      {
        assert listeners[..i + 1] == listeners[..i] + [listeners[i]];
        called := called + [listeners[i]];
        if throws(listeners[i]) {
          logged := logged + [listeners[i]];
        }
      }
      assert listeners[..|listeners|] == listeners;
      notifications := notifications + 1;
    }

    /** `setActiveSession`: the session's messages and a copy of its config, or no messages for an unknown id. */
    method SetActiveSession(id: string)
      modifies this
      ensures activeSessionId == Some(id) && sessions == old(sessions) && notifications == old(notifications) + 1
      ensures var k := Find(sessions, id);
              && (k.None? ==> messages == [] && config == old(config))
              && (k.Some? ==> var s := sessions[k.value];
                    messages == (if s.messages.Some? then s.messages.value else []) && config == s.config)
    {
      activeSessionId := Some(id);
      var k := Find(sessions, id);
      if k.Some? {
        var s := sessions[k.value];
        messages := if s.messages.Some? then s.messages.value else [];
        config := s.config;
      } else {
        messages := [];
      }
      notifications := notifications + 1;
    }

    /** `addSession`: the session goes last, with an empty message list. */
    method AddSession(s: ClientSession)
      modifies this
      ensures sessions == old(sessions) + [s.(messages := Some([]))]
      ensures activeSessionId == old(activeSessionId) && messages == old(messages)
      ensures notifications == old(notifications) + 1
    {
      sessions := sessions + [s.(messages := Some([]))];
      notifications := notifications + 1;
    }

    /** `updateSession`: the first session with the id takes the update; an unknown id changes nothing and notifies no one. */
    method UpdateSession(id: string, u: Update)
      modifies this
      ensures var k := Find(old(sessions), id);
              && (k.None? ==> sessions == old(sessions) && notifications == old(notifications))
              && (k.Some? ==> sessions == old(sessions)[k.value := Assigned(old(sessions)[k.value], u)]
                              && notifications == old(notifications) + 1)
      ensures activeSessionId == old(activeSessionId) && messages == old(messages)
    {
      var k := Find(sessions, id);
      if k.Some? {
        sessions := sessions[k.value := Assigned(sessions[k.value], u)];
        notifications := notifications + 1;
      }
    }

    /** `removeSession`: every session with the id goes; an active removed session hands over to the first remaining one. */
    method RemoveSession(id: string)
      modifies this
      ensures sessions == Filtered(old(sessions), id)
      ensures activeSessionId == NextActive(sessions, old(activeSessionId), id)
      ensures activeSessionId != Some(id)
      ensures notifications == old(notifications) + 1
    {
      sessions := Filtered(sessions, id);
      RemovedNotActive(old(sessions), activeSessionId, id);
      activeSessionId := NextActive(sessions, activeSessionId, id);
      notifications := notifications + 1;
    }

    /**
     * `addMessage`: the message is pushed onto the first session with the id,
     * and mirrored into `messages` when that session is the active one; an
     * unknown session changes nothing and notifies no one.
     */
    method AddMessage(sessionId: string, m: ChatMessage)
      modifies this
      ensures var k := Find(old(sessions), sessionId);
              && (k.None? ==> sessions == old(sessions) && messages == old(messages)
                              && notifications == old(notifications))
              && (k.Some? ==>
                    var s := Pushed(old(sessions)[k.value], m);
                    && sessions == old(sessions)[k.value := s]
                    && messages == (if old(activeSessionId) == Some(sessionId) then s.messages.value else old(messages))
                    && notifications == old(notifications) + 1)
      ensures activeSessionId == old(activeSessionId)
    {
      var k := Find(sessions, sessionId);
      if k.Some? {
        var s := Pushed(sessions[k.value], m);
        sessions := sessions[k.value := s];
        if activeSessionId == Some(sessionId) {
          messages := s.messages.value;
        }
        notifications := notifications + 1;
      }
    }

    /** `setCurrentTool` */
    method SetCurrentTool(tool: Option<string>)
      modifies this
      ensures currentTool == tool && sessions == old(sessions) && notifications == old(notifications) + 1
    {
      currentTool := tool;
      notifications := notifications + 1;
    }

    /** `setPendingPermission` */
    method SetPendingPermission(permission: Option<string>)
      modifies this
      ensures pendingPermission == permission && sessions == old(sessions)
      ensures notifications == old(notifications) + 1
    {
      pendingPermission := permission;
      notifications := notifications + 1;
    }

    /** `toggleSidebar(open)`: the given value, or the opposite of the current one when none is given. */
    method ToggleSidebar(open: Option<bool>)
      modifies this
      ensures open.Some? ==> sidebarOpen == open.value
      ensures open.None? ==> sidebarOpen == !old(sidebarOpen)
      ensures configPanelOpen == old(configPanelOpen) && notifications == old(notifications) + 1
    {
      sidebarOpen := if open.Some? then open.value else !sidebarOpen;
      notifications := notifications + 1;
    }

    /** `toggleConfigPanel(open)`, the same rule for the config panel. */
    method ToggleConfigPanel(open: Option<bool>)
      modifies this
      ensures open.Some? ==> configPanelOpen == open.value
      ensures open.None? ==> configPanelOpen == !old(configPanelOpen)
      ensures sidebarOpen == old(sidebarOpen) && notifications == old(notifications) + 1
    {
      configPanelOpen := if open.Some? then open.value else !configPanelOpen;
      notifications := notifications + 1;
    }
  }

  /** Toggling the sidebar twice without a value leaves it as it was. */
  method ToggleTwice(open: bool) returns (before: bool, after: bool)
    ensures before == open && after == open
  {
    var st := new State();
    st.ToggleSidebar(Some(open));
    before := st.sidebarOpen;
    st.ToggleSidebar(None);
    st.ToggleSidebar(None);
    after := st.sidebarOpen;
  }

  /** A message for an unknown session is dropped: the store still has no sessions and no messages. */
  method MessageForUnknownSession(sessionId: string, m: ChatMessage) returns (count: nat, shown: seq<ChatMessage>)
    ensures count == 0 && shown == []
  {
    var st := new State();
    st.AddMessage(sessionId, m);
    count, shown := |st.sessions|, st.messages;
  }

  /** A message for the active session is shown at once, after the session's earlier messages. */
  method MessageForActiveSession(s: ClientSession, m: ChatMessage) returns (shown: seq<ChatMessage>)
    ensures shown == [m]
  {
    var st := new State();
    st.AddSession(s);
    st.SetActiveSession(s.id);
    st.AddMessage(s.id, m);
    shown := st.messages;
  }
}
