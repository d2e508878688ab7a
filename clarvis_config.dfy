/**
 * The Clarvis server's configuration (clarvis/server/config.js): command-line
 * flags, environment variables and an optional JSON file are layered over
 * the defaults, and a leading '~' in the projects root is expanded.
 * The home directory, `path.join`, the environment and the file's parsed
 * contents are parameters.
 */
module ClarvisConfig {
  import opened Util

  /** A port as `parseInt` leaves it: a number, or NaN for text that is not one. */
  datatype Port = Number(n: int) | NaN

  /** A configuration layer: the keys it sets, as an object spread would copy them. */
  datatype Partial = Partial(port: Option<Port>, projectsRoot: Option<string>)

  datatype Config = Config(port: Port, projectsRoot: string)

  type Join = (string, string) -> string

  const Empty := Partial(None, None)
  const PortFlag := "--port"
  const RootFlag := "--projects-root"
  const DefaultPort := 3000

  /** `DEFAULTS`: port 3000 and `<home>/projects`. */
  function Defaults(home: string, join: Join): (r: Config)
    ensures r.port == Number(3000) && r.projectsRoot == join(home, "projects")
  {
    Config(Number(DefaultPort), join(home, "projects"))
  }

  /** `parseInt(text, 10)` as a port. */
  function PortOf(text: string): (r: Port)
    ensures r.NaN? <==> ParseIntJs(text).None?
    ensures r.Number? ==> ParseIntJs(text) == Some(r.n)
  {
    match ParseIntJs(text)
    case None => NaN
    case Some(n) => Number(n)
  }

  /** `{...lower, ...upper}`: each key `upper` sets replaces the one below it. */
  function Over(lower: Partial, upper: Partial): (r: Partial)
    ensures r.port == (if upper.port.Some? then upper.port else lower.port)
    ensures r.projectsRoot == (if upper.projectsRoot.Some? then upper.projectsRoot else lower.projectsRoot)
  {
    Partial(if upper.port.Some? then upper.port else lower.port,
            if upper.projectsRoot.Some? then upper.projectsRoot else lower.projectsRoot)
  }

  /** Spreading a layer over a whole configuration. */
  function Apply(base: Config, layer: Partial): (r: Config)
    ensures layer.port.Some? ==> r.port == layer.port.value
    ensures layer.port.None? ==> r.port == base.port
    ensures layer.projectsRoot.Some? ==> r.projectsRoot == layer.projectsRoot.value
    ensures layer.projectsRoot.None? ==> r.projectsRoot == base.projectsRoot
  {
    Config(if layer.port.Some? then layer.port.value else base.port,
           if layer.projectsRoot.Some? then layer.projectsRoot.value else base.projectsRoot)
  }

  // ---- parseArgs ----

  /**
   * The keys set by the arguments from position `i` on: a flag followed by a
   * non-empty argument sets its key and consumes that argument; everything
   * else is skipped; a later flag overrides an earlier one.
   */
  function ArgsFrom(args: seq<string>, i: nat): (r: Partial)
    ensures r.port.Some? ==>
              exists j :: i <= j && j + 1 < |args| && args[j] == PortFlag && args[j + 1] != ""
                          && r.port == Some(PortOf(args[j + 1]))
    ensures r.projectsRoot.Some? ==>
              exists j :: i <= j && j + 1 < |args| && args[j] == RootFlag && args[j + 1] != ""
                          && r.projectsRoot == Some(args[j + 1])
    decreases |args| - i
  {
    if i >= |args| then Empty
    else if args[i] == PortFlag && i + 1 < |args| && args[i + 1] != "" then
      Over(Partial(Some(PortOf(args[i + 1])), None), ArgsFrom(args, i + 2))
    else if args[i] == RootFlag && i + 1 < |args| && args[i + 1] != "" then
      Over(Partial(None, Some(args[i + 1])), ArgsFrom(args, i + 2))
    else ArgsFrom(args, i + 1)
  }

  lemma OverAssociative(a: Partial, b: Partial, c: Partial)
    ensures Over(Over(a, b), c) == Over(a, Over(b, c))
  {
  }

  /** `parseArgs`: one pass over the arguments, filling the result as the flags come. */
  method ParseArgs(args: seq<string>) returns (result: Partial)
    ensures result == ArgsFrom(args, 0)
  {
    result := Empty;
    var i := 0;
    while i < |args|
      invariant i <= |args|
      invariant Over(result, ArgsFrom(args, i)) == ArgsFrom(args, 0)
    {
      if args[i] == PortFlag && i + 1 < |args| && args[i + 1] != "" {
        OverAssociative(result, Partial(Some(PortOf(args[i + 1])), None), ArgsFrom(args, i + 2));
        result := Over(result, Partial(Some(PortOf(args[i + 1])), None));
        i := i + 1;
      } else if args[i] == RootFlag && i + 1 < |args| && args[i + 1] != "" {
        OverAssociative(result, Partial(None, Some(args[i + 1])), ArgsFrom(args, i + 2));
        result := Over(result, Partial(None, Some(args[i + 1])));
        i := i + 1;
      }
      i := i + 1;
    }
  }

  /** Arguments without either flag set nothing. */
  lemma {:induction false} ArgsWithoutFlags(args: seq<string>, i: nat)
    requires forall j :: 0 <= j < |args| ==> args[j] != PortFlag && args[j] != RootFlag
    ensures ArgsFrom(args, i) == Empty
    decreases |args| - i
  {
    if i < |args| {
      ArgsWithoutFlags(args, i + 1);
    }
  }

  // ---- the other layers ----

  /** `loadConfigFile`: a missing or unparsable file contributes nothing. */
  function LoadConfigFile(exists_: bool, parsed: Option<Partial>): (r: Partial)
    ensures !exists_ || parsed.None? ==> r == Empty
    ensures exists_ && parsed.Some? ==> r == parsed.value
  {
    if !exists_ then Empty
    else match parsed
      case None => Empty
      case Some(p) => p
  }

  const PortVar := "CLARVIS_PORT"
  const RootVar := "CLARVIS_PROJECTS_ROOT"

  /** Whether a variable is set to a non-empty value. */
  predicate Truthy(env: map<string, string>, name: string) {
    name in env && env[name] != ""
  }

  /** `loadEnvVars`: only variables set to a non-empty value count. */
  function LoadEnvVars(env: map<string, string>): (r: Partial)
    ensures r.port.Some? <==> Truthy(env, PortVar)
    ensures r.port.Some? ==> r.port.value == PortOf(env[PortVar])
    ensures r.projectsRoot.Some? <==> Truthy(env, RootVar)
    ensures r.projectsRoot.Some? ==> r.projectsRoot.value == env[RootVar]
  {
    Partial(if Truthy(env, PortVar) then Some(PortOf(env[PortVar])) else None,
            if Truthy(env, RootVar) then Some(env[RootVar]) else None)
  }

  // ---- loadConfig ----

  /** A projects root starting with '~' becomes the home directory joined with the rest. */
  function ExpandHome(root: string, home: string, join: Join): (r: string)
    ensures |root| > 0 && root[0] == '~' ==> r == join(home, root[1..])
    ensures (|root| == 0 || root[0] != '~') ==> r == root
  {
    if StartsWith(root, "~") then join(home, root[1..]) else root
  }

  /** `loadConfig`: defaults, then the file, the environment and the arguments, then '~' expansion. */
  function LoadConfig(argv: seq<string>, env: map<string, string>, fileExists: bool,
                      fileParsed: Option<Partial>, home: string, join: Join): (r: Config)
    // the port: from the arguments, else the environment, else the file, else 3000
    ensures var cli, file := ArgsFrom(argv, 0), LoadConfigFile(fileExists, fileParsed);
            && (cli.port.Some? ==> r.port == cli.port.value)
            && (cli.port.None? && Truthy(env, PortVar) ==> r.port == PortOf(env[PortVar]))
            && (cli.port.None? && !Truthy(env, PortVar) && file.port.Some? ==> r.port == file.port.value)
            && (cli.port.None? && !Truthy(env, PortVar) && file.port.None? ==> r.port == Number(3000))
    // the projects root: chosen with the same precedence, and only then has its '~' expanded
    ensures var cli, file := ArgsFrom(argv, 0), LoadConfigFile(fileExists, fileParsed);
            && (cli.projectsRoot.Some? ==> r.projectsRoot == ExpandHome(cli.projectsRoot.value, home, join))
            && (cli.projectsRoot.None? && Truthy(env, RootVar) ==>
                  r.projectsRoot == ExpandHome(env[RootVar], home, join))
            && (cli.projectsRoot.None? && !Truthy(env, RootVar) && file.projectsRoot.Some? ==>
                  r.projectsRoot == ExpandHome(file.projectsRoot.value, home, join))
            && (cli.projectsRoot.None? && !Truthy(env, RootVar) && file.projectsRoot.None? ==>
                  r.projectsRoot == ExpandHome(join(home, "projects"), home, join))
  {
    var layers := Over(Over(LoadConfigFile(fileExists, fileParsed), LoadEnvVars(env)), ArgsFrom(argv, 0));
    var merged := Apply(Defaults(home, join), layers);
    Config(merged.port, ExpandHome(merged.projectsRoot, home, join))
  }

  /** With no arguments, no variables and no file, the configuration is the defaults. */
  lemma NothingGivenIsDefaults(home: string, join: Join)
    requires !StartsWith(join(home, "projects"), "~")
    ensures LoadConfig([], map[], false, None, home, join) == Defaults(home, join)
  {
  }

  /** `--port <p> --projects-root <root>` with non-empty values sets both keys. */
  lemma PortThenRoot(p: string, root: string)
    requires p != "" && root != ""
    ensures ArgsFrom([PortFlag, p, RootFlag, root], 0) == Partial(Some(PortOf(p)), Some(root))
  {
    var args := [PortFlag, p, RootFlag, root];
    assert args[2] != PortFlag by {
      assert |args[2]| != |PortFlag|;
    }
    assert args[0] == PortFlag && args[1] == p && args[3] == root;
    var tail := ArgsFrom(args, 4);
    assert tail == Empty;
    var second := ArgsFrom(args, 2);
    assert second == Over(Partial(None, Some(root)), tail);
    assert ArgsFrom(args, 0) == Over(Partial(Some(PortOf(p)), None), second);
  }

  /** `--port <digits> --projects-root <root>` overrides whatever the other layers hold. */
  lemma CliOverridesAll(p: string, root: string, env: map<string, string>, fileExists: bool,
                        fileParsed: Option<Partial>, home: string, join: Join)
    requires |p| > 0 && AllDigits(p) && |root| > 0 && root[0] != '~'
    ensures LoadConfig([PortFlag, p, RootFlag, root], env, fileExists, fileParsed, home, join)
            == Config(Number(DecimalValue(p)), root)
  {
    var args := [PortFlag, p, RootFlag, root];
    PortThenRoot(p, root);
    ParseIntDigits(p, []);
    assert p + [] == p;
  }

  /** `--port invalid` gives a NaN port, not the default. */
  lemma InvalidPortIsNaN(env: map<string, string>, fileExists: bool, fileParsed: Option<Partial>,
                         home: string, join: Join)
    ensures LoadConfig([PortFlag, "invalid"], env, fileExists, fileParsed, home, join).port == NaN
  {
    var args := [PortFlag, "invalid"];
    assert ArgsFrom(args, 2) == Empty;
    assert TrimJsStart("invalid") == "invalid";
  }

  /** `--projects-root ~/my-projects` is expanded against the home directory. */
  lemma TildeExpanded(env: map<string, string>, fileExists: bool, fileParsed: Option<Partial>,
                      home: string, join: Join)
    ensures LoadConfig([RootFlag, "~/my-projects"], env, fileExists, fileParsed, home, join).projectsRoot
            == join(home, "/my-projects")
  {
    var args := [RootFlag, "~/my-projects"];
    assert ArgsFrom(args, 2) == Empty;
    assert "~/my-projects"[1..] == "/my-projects";
  }
}
