/**
 * Tool-permission requests of the Clarvis server
 * (clarvis/server/permissions.js). A request for a read-only tool is
 * allowed at once; any other is registered under a random request id (a
 * parameter here) until a response or its timeout resolves it. Resolving a
 * request is recorded in `resolved`, in order, standing for the promise's
 * `resolve` call; the broadcast of the request and the timer itself are not
 * modelled beyond whether a timeout was armed.
 */
module ClarvisPermissions {
  import opened Util
  import M = JsMap

  datatype Decision = Allow(updatedInput: Option<string>) | Deny(message: string)

  datatype Pending = Pending(sessionId: string, toolName: string, timed: bool)

  /** An entry `getPendingPermissions` lists. */
  datatype Listed = Listed(requestId: string, toolName: string)

  const ReadOnlyTools := ["Read", "Glob", "Grep", "WebFetch", "WebSearch"]
  const DeniedByUser := "User denied permission"
  const TimedOut := "Permission request timed out"

  /** The pending requests of one session, in the Map's order. */
  function PendingOf(e: M.Entries<string, Pending>, sessionId: string): (r: seq<Listed>)
    ensures |r| <= |e|
  {
    if |e| == 0 then []
    else
      var rest := PendingOf(e[..|e| - 1], sessionId);
      var last := e[|e| - 1];
      if last.1.sessionId == sessionId then rest + [Listed(last.0, last.1.toolName)] else rest
  }

  /** A request is listed for a session exactly when it is pending for that session. */
  lemma {:induction false} PendingOfMembers(e: M.Entries<string, Pending>, sessionId: string)
    ensures forall rid, tool :: Listed(rid, tool) in PendingOf(e, sessionId) <==>
              exists timed :: (rid, Pending(sessionId, tool, timed)) in e
  {
    if |e| > 0 {
      var init := e[..|e| - 1];
      PendingOfMembers(init, sessionId);
      assert e == init + [e[|e| - 1]];
      forall rid, tool
        ensures Listed(rid, tool) in PendingOf(e, sessionId) <==>
                exists timed :: (rid, Pending(sessionId, tool, timed)) in e
      {
        if Listed(rid, tool) in PendingOf(e, sessionId) {
          if Listed(rid, tool) in PendingOf(init, sessionId) {
            var timed :| (rid, Pending(sessionId, tool, timed)) in init;
            assert (rid, Pending(sessionId, tool, timed)) in e;
          } else {
            assert (rid, Pending(sessionId, tool, e[|e| - 1].1.timed)) == e[|e| - 1];
          }
        }
        if exists timed :: (rid, Pending(sessionId, tool, timed)) in e {
          var timed :| (rid, Pending(sessionId, tool, timed)) in e;
          if (rid, Pending(sessionId, tool, timed)) in init {
          } else {
            assert e[|e| - 1] == (rid, Pending(sessionId, tool, timed));
          }
        }
      }
    }
  }

  /**
   * `...(updatedInput && { updatedInput })`: a falsy edited input, the
   * empty text here, adds no field, as if none had been given.
   */
  function EditedInput(updatedInput: Option<string>): (r: Option<string>)
    ensures r.Some? <==> updatedInput.Some? && updatedInput.value != ""
    ensures r.Some? ==> r == updatedInput
  {
    if updatedInput == Some("") then None else updatedInput
  }

  /** The module's `pendingPermissions` Map, and the resolutions handed back so far. */
  class Permissions {
    var pending: M.Entries<string, Pending>
    var resolved: seq<(string, Decision)>

    ghost predicate Valid()
      reads this
    {
      M.Distinct(pending)
    }

    constructor()
      ensures Valid() && pending == [] && resolved == []
    {
      pending := [];
      resolved := [];
    }

    /**
     * The handler `createPermissionHandler(sessionId, timeoutMs)` returns,
     * called for `toolName`: a read-only tool is allowed at once and nothing
     * is registered; any other tool waits under `requestId`, with a timeout
     * armed only for a positive `timeoutMs`.
     */
    method Request(sessionId: string, timeoutMs: Option<int>, toolName: string, requestId: string)
      returns (immediate: Option<Decision>)
      requires Valid()
      modifies this
      ensures Valid() && resolved == old(resolved)
      ensures toolName in ReadOnlyTools ==> immediate == Some(Allow(None)) && pending == old(pending)
      ensures toolName !in ReadOnlyTools ==>
                immediate == None
                && pending == M.Put(old(pending), requestId,
                                    Pending(sessionId, toolName, timeoutMs.Some? && timeoutMs.value > 0))
    {
      if toolName in ReadOnlyTools {
        return Some(Allow(None));
      }
      var timed := timeoutMs.Some? && timeoutMs.value > 0;
      M.PutKeepsDistinct(pending, requestId, Pending(sessionId, toolName, timed));
      pending := M.Put(pending, requestId, Pending(sessionId, toolName, timed));
      immediate := None;
    }

    /** The entry's own `resolve`: the entry goes and the decision is handed back. */
    method Resolve(requestId: string, decision: Decision)
      requires Valid()
      modifies this
      ensures Valid()
      ensures pending == M.Remove(old(pending), requestId)
      ensures resolved == old(resolved) + [(requestId, decision)]
    {
      M.RemoveKeepsDistinct(pending, requestId);
      pending := M.Remove(pending, requestId);
      resolved := resolved + [(requestId, decision)];
    }

    /**
     * `handlePermissionResponse`: false for an unknown request; otherwise
     * 'allow' allows, with the edited input when one is given, and anything
     * else denies.
     */
    method HandlePermissionResponse(requestId: string, decision: string, updatedInput: Option<string>)
      returns (ok: bool)
      requires Valid()
      modifies this
      ensures Valid()
      ensures ok <==> M.Get(old(pending), requestId).Some?
      ensures !ok ==> pending == old(pending) && resolved == old(resolved)
      ensures ok ==> pending == M.Remove(old(pending), requestId) && M.Get(pending, requestId).None?
      ensures ok && decision == "allow" ==> resolved == old(resolved) + [(requestId, Allow(EditedInput(updatedInput)))]
      ensures ok && decision != "allow" ==> resolved == old(resolved) + [(requestId, Deny(DeniedByUser))]
    {
      if M.Get(pending, requestId).None? {
        return false;
      }
      if decision == "allow" {
        Resolve(requestId, Allow(EditedInput(updatedInput)));
      } else {
        Resolve(requestId, Deny(DeniedByUser));
      }
      ok := true;
    }

    /** The timer of a request firing: the entry goes and the request is denied. */
    method TimeoutFires(requestId: string)
      requires Valid()
      modifies this
      ensures Valid()
      ensures var p := M.Get(old(pending), requestId);
              if p.Some? && p.value.timed then
                pending == M.Remove(old(pending), requestId)
                && resolved == old(resolved) + [(requestId, Deny(TimedOut))]
              else pending == old(pending) && resolved == old(resolved)
    {
      var p := M.Get(pending, requestId);
      if p.Some? && p.value.timed {
        Resolve(requestId, Deny(TimedOut));
      }
    }

    /** `getPendingPermissions`: the session's requests, in the Map's order. */
    method GetPendingPermissions(sessionId: string) returns (result: seq<Listed>)
      ensures result == PendingOf(pending, sessionId)
    {
      result := [];
      for i := 0 to |pending|
        invariant result == PendingOf(pending[..i], sessionId)
      {
        assert pending[..i + 1][..i] == pending[..i];
        var (requestId, p) := pending[i];
        if p.sessionId == sessionId {
          result := result + [Listed(requestId, p.toolName)];
        }
      }
      assert pending[..|pending|] == pending;
    }
  }

  /** A request answered once cannot be answered again: the second response is refused. */
  method AnswerTwice(sessionId: string, toolName: string, requestId: string) returns (first: bool, second: bool)
    requires toolName !in ReadOnlyTools
    ensures first && !second
  {
    var p := new Permissions();
    var immediate := p.Request(sessionId, None, toolName, requestId);
    M.PutGet(p.pending, requestId, Pending(sessionId, toolName, false));
    first := p.HandlePermissionResponse(requestId, "allow", None);
    second := p.HandlePermissionResponse(requestId, "deny", None);
  }
}
