/**
 * The earlier Clarvis server's bearer-token check (clarvis-old/server/auth.js):
 * a token kept in `<wd>/.clarvis/auth-token`, generated from 32 random bytes
 * when that file cannot be read, and compared against the Authorization
 * header of every API and WebSocket request. The file system is reduced to
 * the text the token file holds (`None` when reading it fails) and the files
 * written; the random bytes are a parameter.
 */
module ClarvisOldAuth {
  import opened Util
  import P = ClarvisOldPersistence

  const TokenFile := "auth-token"
  const RandomBytes := 32
  const ApiPrefix := "/api/"
  const WsPath := "/ws"
  const Bearer := "Bearer "
  const AuthRequired := "Authorization required"
  const InvalidToken := "Invalid token"

  /** What the middleware does with a request: hand it on, or answer with a status and an error. */
  datatype Decision = Next | Reject(status: int, error: string)

  /** The path `initAuth` keeps the token at. */
  function TokenPath(workingDirectory: string): (r: string)
    ensures EndsWith(r, "/" + TokenFile)
    ensures StartsWith(r, workingDirectory)
  {
    var r := workingDirectory + "/" + P.ClarvisDir + "/" + TokenFile;
    assert r[|r| - |"/" + TokenFile|..] == "/" + TokenFile;
    assert r[..|workingDirectory|] == workingDirectory;
    r
  }

  /** JavaScript's `s.replace(pattern, '')` with a text pattern: its first occurrence is cut out. */
  function RemoveFirst(s: string, pattern: string): (r: string)
    ensures !Contains(s, pattern) ==> r == s
    ensures StartsWith(s, pattern) ==> r == s[|pattern|..]
    ensures Contains(s, pattern) ==> |r| == |s| - |pattern|
    decreases |s|
  {
    if StartsWith(s, pattern) then s[|pattern|..]
    else if |s| == 0 then s
    else [s[0]] + RemoveFirst(s[1..], pattern)
  }

  /** The requests the middleware guards: the API and the WebSocket upgrade. */
  predicate Guarded(url: string) {
    StartsWith(url, ApiPrefix) || url == WsPath
  }

  /** A token JavaScript counts as set: not null and not ''. */
  predicate Configured(token: Option<string>) {
    token.Some? && token.value != ""
  }

  /** `authMiddleware`'s decision for a request's URL and Authorization header under the current token. */
  function AuthDecision(token: Option<string>, url: string, authorization: Option<string>): (r: Decision)
    ensures !Guarded(url) || !Configured(token) ==> r == Next
    ensures Guarded(url) && Configured(token) && (authorization.None? || authorization.value == "") ==>
              r == Reject(401, AuthRequired)
    ensures r.Reject? ==> r.status == 401 || r.status == 403
    ensures r == Next <==>
              !Guarded(url) || !Configured(token)
              || (authorization.Some? && authorization.value != ""
                  && RemoveFirst(authorization.value, Bearer) == token.value)
  {
    if !Guarded(url) then Next
    else if !Configured(token) then Next
    else if authorization.None? || authorization.value == "" then Reject(401, AuthRequired)
    else if RemoveFirst(authorization.value, Bearer) != token.value then Reject(403, InvalidToken)
    else Next
  }

  /** `validateWsToken`: true without a token, else an exact comparison. */
  function ValidWsToken(token: Option<string>, provided: Option<string>): (r: bool)
    ensures !Configured(token) ==> r
    ensures Configured(token) ==> (r <==> provided == token)
  {
    !Configured(token) || provided == token
  }

  /** A guarded request carrying `Bearer <token>` passes, and one carrying any other bearer token is refused with 403. */
  lemma BearerChecked(token: string, url: string, presented: string)
    requires token != "" && Guarded(url)
    ensures AuthDecision(Some(token), url, Some(Bearer + presented)) ==
              if presented == token then Next else Reject(403, InvalidToken)
  {
    var header := Bearer + presented;
    assert StartsWith(header, Bearer) && header[|Bearer|..] == presented;
  }

  /** The text of a hexadecimal token never holds "Bearer ", so it is also accepted bare, without the scheme. */
  lemma {:induction false} BareHexAccepted(random: seq<bv8>, url: string)
    requires |random| == RandomBytes && Guarded(url)
    ensures AuthDecision(Some(Hex(random)), url, Some(Hex(random))) == Next
  {
    var h := Hex(random);
    HexIsHex(random);
    NoBearerInHex(h);
  }

  lemma {:induction false} NoBearerInHex(h: string)
    requires forall i :: 0 <= i < |h| ==> IsHex(h[i])
    ensures !Contains(h, Bearer)
    decreases |h|
  {
    assert Bearer[0] == 'B' && !IsHex('B');
    if |h| > 0 {
      NoBearerInHex(h[1..]);
    }
  }

  /** A generated token is 64 lower-case hexadecimal digits, and different bytes give different tokens. */
  lemma GeneratedToken(random: seq<bv8>, other: seq<bv8>)
    requires |random| == RandomBytes && |other| == RandomBytes
    ensures |Hex(random)| == 64 && forall i :: 0 <= i < 64 ==> IsHex(Hex(random)[i])
    ensures Hex(random) == Hex(other) ==> random == other
  {
    UnhexHex(random);
    UnhexHex(other);
  }

  /** The module's `authToken` and `tokenPath`, with the files the module writes. */
  class TokenAuth {
    var authToken: Option<string>
    var tokenPath: Option<string>
    var written: map<string, string>

    constructor()
      ensures authToken == None && tokenPath == None && written == map[]
    {
      authToken := None;
      tokenPath := None;
      written := map[];
    }

    /**
     * `initAuth`: the token file's text, trimmed, when it can be read
     * (`stored`); otherwise a new token from `random`, written to the file.
     */
    method InitAuth(workingDirectory: string, stored: Option<string>, random: seq<bv8>) returns (token: string)
      requires |random| == RandomBytes
      modifies this
      ensures tokenPath == Some(TokenPath(workingDirectory)) && authToken == Some(token)
      ensures stored.Some? ==> token == TrimJs(stored.value) && written == old(written)
      ensures stored.None? ==> token == Hex(random) && written == old(written)[TokenPath(workingDirectory) := token]
    {
      tokenPath := Some(TokenPath(workingDirectory));
      if stored.Some? {
        token := TrimJs(stored.value);
      } else {
        token := Hex(random);
        written := written[tokenPath.value := token];
      }
      authToken := Some(token);
    }

    /** `regenerateToken`: a new token from `random`, written to the token file once `initAuth` has named one. */
    method RegenerateToken(random: seq<bv8>) returns (token: string)
      requires |random| == RandomBytes
      modifies this
      ensures token == Hex(random) && |token| == 64 && authToken == Some(token)
      ensures tokenPath == old(tokenPath)
      ensures tokenPath.None? ==> written == old(written)
      ensures tokenPath.Some? ==> written == old(written)[tokenPath.value := token]
    {
      token := Hex(random);
      authToken := Some(token);
      if tokenPath.Some? {
        written := written[tokenPath.value := token];
      }
    }
  }

  /** A token file holding only white space leaves the token '', and then every request passes. */
  method BlankTokenFileOpensEverything(workingDirectory: string, blank: string, random: seq<bv8>, url: string,
                                       authorization: Option<string>, provided: Option<string>)
    returns (decision: Decision, wsOk: bool)
    requires |random| == RandomBytes
    requires forall i :: 0 <= i < |blank| ==> JsSpace(blank[i])
    ensures decision == Next && wsOk
  {
    var auth := new TokenAuth();
    var token := auth.InitAuth(workingDirectory, Some(blank), random);
    TrimJsAllSpace(blank);
    decision := AuthDecision(auth.authToken, url, authorization);
    wsOk := ValidWsToken(auth.authToken, provided);
  }

  /** Text made only of white space trims to ''. */
  lemma {:induction false} TrimJsAllSpace(s: string)
    requires forall i :: 0 <= i < |s| ==> JsSpace(s[i])
    ensures TrimJs(s) == ""
  {
    TrimJsSlice(s);
  }

  /** After `regenerateToken` the previous token no longer opens the API, and the new one does. */
  method RegenerateRevokes(workingDirectory: string, first: seq<bv8>, second: seq<bv8>, url: string)
    returns (oldDecision: Decision, newDecision: Decision)
    requires |first| == RandomBytes && |second| == RandomBytes && first != second
    requires Guarded(url)
    ensures oldDecision == Reject(403, InvalidToken) && newDecision == Next
  {
    var auth := new TokenAuth();
    var t1 := auth.InitAuth(workingDirectory, None, first);
    var t2 := auth.RegenerateToken(second);
    GeneratedToken(first, second);
    BearerChecked(t2, url, t1);
    BearerChecked(t2, url, t2);
    oldDecision := AuthDecision(auth.authToken, url, Some(Bearer + t1));
    newDecision := AuthDecision(auth.authToken, url, Some(Bearer + t2));
  }
}
