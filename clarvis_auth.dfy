/**
 * The Clarvis server's password (clarvis/server/auth.js): taken from the
 * environment when set there, otherwise generated from 16 random bytes,
 * which are a parameter here.
 */
module ClarvisAuth {
  import opened Util

  const EnvVarName := "CLARVIS_PASSWORD"
  const RandomBytes := 16

  /** Whether the environment holds a non-empty password. */
  predicate FromEnv(env: map<string, string>) {
    EnvVarName in env && env[EnvVarName] != ""
  }

  /** The password `initPassword` settles on. */
  function ChosenPassword(env: map<string, string>, random: seq<bv8>): (r: string)
    requires |random| == RandomBytes
    ensures FromEnv(env) ==> r == env[EnvVarName]
    ensures !FromEnv(env) ==> r == Hex(random) && |r| == 32
    ensures r != ""
  {
    if FromEnv(env) then env[EnvVarName] else Hex(random)
  }

  /** A generated password is 32 lower-case hexadecimal digits, and different bytes give different passwords. */
  lemma GeneratedPassword(random: seq<bv8>, other: seq<bv8>)
    requires |random| == RandomBytes && |other| == RandomBytes
    ensures |Hex(random)| == 32 && forall i :: 0 <= i < 32 ==> IsHex(Hex(random)[i])
    ensures Hex(random) == Hex(other) ==> random == other
  {
    UnhexHex(random);
    UnhexHex(other);
  }

  /** The module's `password` (`None` for null) and `wasGenerated` variables. */
  class Auth {
    var password: Option<string>
    var wasGenerated: bool

    constructor()
      ensures password == None && !wasGenerated
    {
      password := None;
      wasGenerated := false;
    }

    /** `initPassword`: the environment's password if it is set, else a generated one. */
    method InitPassword(env: map<string, string>, random: seq<bv8>) returns (pw: string, generated: bool)
      requires |random| == RandomBytes
      modifies this
      ensures pw == ChosenPassword(env, random) && generated == !FromEnv(env)
      ensures password == Some(pw) && wasGenerated == generated
    {
      if FromEnv(env) {
        password := Some(env[EnvVarName]);
        wasGenerated := false;
      } else {
        password := Some(Hex(random));
        wasGenerated := true;
      }
      pw, generated := password.value, wasGenerated;
    }

    /** `validatePassword`: false while no password is set, else a plain comparison. */
    function ValidatePassword(provided: string): (r: bool)
      reads this
      ensures password.None? ==> !r
      ensures r ==> password == Some(provided)
      ensures password.Some? && password.value != "" ==> (r <==> provided == password.value)
    {
      match password
      case None => false
      case Some(p) => p != "" && provided == p
    }
  }

  /** Before `initPassword` every password is refused. */
  method RefusedBeforeInit(provided: string) returns (ok: bool)
    ensures !ok
  {
    var auth := new Auth();
    ok := auth.ValidatePassword(provided);
  }

  /** After `initPassword` exactly the chosen password is accepted. */
  method AcceptedAfterInit(env: map<string, string>, random: seq<bv8>, provided: string) returns (ok: bool)
    requires |random| == RandomBytes
    ensures ok <==> provided == ChosenPassword(env, random)
  {
    var auth := new Auth();
    var pw, generated := auth.InitPassword(env, random);
    ok := auth.ValidatePassword(provided);
  }
}
