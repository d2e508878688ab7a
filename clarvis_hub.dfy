/**
 * The Clarvis server's WebSocket hub (clarvis/server/ws-hub.js): one entry
 * per connected client, in connection order, with the sessions it follows.
 * A client's socket is reduced to its `readyState`, which the socket
 * library changes; a send is reported as the id of the client it reaches.
 */
module ClarvisHub {
  import opened Util
  import M = JsMap

  const Open := 1
  const SessionCreated := "session:created"

  datatype Client = Client(readyState: int, subscribedSessions: set<string>)

  /** The clients a session broadcast reaches, in the Map's order. */
  function Recipients(e: M.Entries<string, Client>, sessionId: string, kind: string): (r: seq<string>)
    ensures |r| <= |e|
  {
    if |e| == 0 then []
    else
      var rest := Recipients(e[..|e| - 1], sessionId, kind);
      var (id, c) := e[|e| - 1];
      if (sessionId in c.subscribedSessions || kind == SessionCreated) && c.readyState == Open
      then rest + [id] else rest
  }

  /** The clients whose socket is open, in the Map's order. */
  function OpenClients(e: M.Entries<string, Client>): (r: seq<string>)
    ensures |r| <= |e|
  {
    if |e| == 0 then []
    else
      var rest := OpenClients(e[..|e| - 1]);
      if e[|e| - 1].1.readyState == Open then rest + [e[|e| - 1].0] else rest
  }

  /**
   * A broadcast reaches a client exactly when its socket is open and it
   * follows the session, or the message announces a new session.
   */
  lemma {:induction false} RecipientsMembers(e: M.Entries<string, Client>, sessionId: string, kind: string)
    ensures forall id :: id in Recipients(e, sessionId, kind) <==>
              exists c :: (id, c) in e && c.readyState == Open
                          && (sessionId in c.subscribedSessions || kind == SessionCreated)
  {
    if |e| > 0 {
      var init := e[..|e| - 1];
      RecipientsMembers(init, sessionId, kind);
      var last := e[|e| - 1];
      assert e == init + [last];
      forall id
        ensures id in Recipients(e, sessionId, kind) <==>
                exists c :: (id, c) in e && c.readyState == Open
                            && (sessionId in c.subscribedSessions || kind == SessionCreated)
      {
        if id in Recipients(e, sessionId, kind) && id !in Recipients(init, sessionId, kind) {
          assert (id, last.1) == last;
        }
        if exists c :: (id, c) in e && c.readyState == Open
                       && (sessionId in c.subscribedSessions || kind == SessionCreated) {
          var c :| (id, c) in e && c.readyState == Open
                   && (sessionId in c.subscribedSessions || kind == SessionCreated);
          if (id, c) !in init {
            assert last == (id, c);
          }
        }
      }
    }
  }

  /** A session-created broadcast reaches every open client, as `broadcastAll` does. */
  lemma {:induction false} CreatedReachesAllOpen(e: M.Entries<string, Client>, sessionId: string)
    ensures Recipients(e, sessionId, SessionCreated) == OpenClients(e)
  {
    if |e| > 0 {
      CreatedReachesAllOpen(e[..|e| - 1], sessionId);
    }
  }

  /** The hub: whether `initWebSocket` has run, and the `clientSessions` Map. */
  class Hub {
    var started: bool
    var clients: M.Entries<string, Client>

    ghost predicate Valid()
      reads this
    {
      M.Distinct(clients)
    }

    constructor()
      ensures Valid() && !started && clients == []
    {
      started := false;
      clients := [];
    }

    /** `initWebSocket` */
    method InitWebSocket()
      modifies this
      ensures started && clients == old(clients)
    {
      started := true;
    }

    /** A new connection: the client is registered following no session. */
    method Connect(clientId: string, readyState: int)
      requires Valid()
      modifies this
      ensures Valid() && started == old(started)
      ensures clients == M.Put(old(clients), clientId, Client(readyState, {}))
    {
      M.PutKeepsDistinct(clients, clientId, Client(readyState, {}));
      clients := M.Put(clients, clientId, Client(readyState, {}));
    }

    /** `handleClientMessage`: subscribe and unsubscribe change that client's sessions only. */
    method HandleClientMessage(clientId: string, kind: string, sessionId: string)
      requires Valid()
      modifies this
      ensures Valid() && started == old(started)
      ensures var c := M.Get(old(clients), clientId);
              if c.Some? && kind == "subscribe" then
                clients == M.Put(old(clients), clientId,
                                 c.value.(subscribedSessions := c.value.subscribedSessions + {sessionId}))
              else if c.Some? && kind == "unsubscribe" then
                clients == M.Put(old(clients), clientId,
                                 c.value.(subscribedSessions := c.value.subscribedSessions - {sessionId}))
              else clients == old(clients)
    {
      var c := M.Get(clients, clientId);
      if c.None? {
        return;
      }
      var client := c.value;
      if kind == "subscribe" {
        client := client.(subscribedSessions := client.subscribedSessions + {sessionId});
      } else if kind == "unsubscribe" {
        client := client.(subscribedSessions := client.subscribedSessions - {sessionId});
      } else {
        return;
      }
      M.PutKeepsDistinct(clients, clientId, client);
      clients := M.Put(clients, clientId, client);
    }

    /** A closing client is dropped. */
    method Close(clientId: string)
      requires Valid()
      modifies this
      ensures Valid() && started == old(started)
      ensures clients == M.Remove(old(clients), clientId) && M.Get(clients, clientId).None?
    {
      M.RemoveKeepsDistinct(clients, clientId);
      clients := M.Remove(clients, clientId);
    }

    /** `broadcast`: nothing before `initWebSocket`; otherwise the clients that receive the message. */
    method Broadcast(sessionId: string, kind: string) returns (sentTo: seq<string>)
      ensures !started ==> sentTo == []
      ensures started ==> sentTo == Recipients(clients, sessionId, kind)
    {
      if !started {
        return [];
      }
      sentTo := [];
      for i := 0 to |clients|
        invariant sentTo == Recipients(clients[..i], sessionId, kind)
      {
        assert clients[..i + 1][..i] == clients[..i];
        var (id, c) := clients[i];
        if sessionId in c.subscribedSessions || kind == SessionCreated {
          if c.readyState == Open {
            sentTo := sentTo + [id];
          }
        }
      }
      assert clients[..|clients|] == clients;
    }

    /** `broadcastAll`: nothing before `initWebSocket`; otherwise every open client. */
    method BroadcastAll() returns (sentTo: seq<string>)
      ensures !started ==> sentTo == []
      ensures started ==> sentTo == OpenClients(clients)
    {
      if !started {
        return [];
      }
      sentTo := [];
      for i := 0 to |clients|
        invariant sentTo == OpenClients(clients[..i])
      {
        assert clients[..i + 1][..i] == clients[..i];
        if clients[i].1.readyState == Open {
          sentTo := sentTo + [clients[i].0];
        }
      }
      assert clients[..|clients|] == clients;
    }

    /** `sendToClient`: sent only to a known client whose socket is open. */
    function SendToClient(clientId: string): (sent: bool)
      reads this
      ensures sent <==> exists c :: (clientId, c) in clients && c.readyState == Open
                                   && M.Get(clients, clientId) == Some(c)
    {
      var c := M.Get(clients, clientId);
      c.Some? && c.value.readyState == Open
    }

    /** `getConnectedClients` */
    function ConnectedClients(): (n: nat)
      reads this
      ensures n == |clients|
    {
      |clients|
    }
  }
}
