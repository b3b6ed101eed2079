/** The Console class's enablement decision (lib/classes/console.js).
    When an invocation is constructed, the command path is joined with single
    spaces. The integration is enabled iff that joined command is supported
    and the configuration's `console` and `org` values are both truthy. */
module Console {

  /** The configuration values a JavaScript `_.get` can return, reduced to
      what decides their truthiness. `Object` stands for every object,
      array and function; all of them are truthy. */
  datatype JsValue =
    | Undefined
    | Null
    | Bool(b: bool)
    | Number(n: real)
    | NaN
    | BigInt(i: int)
    | Str(s: string)
    | Object

  /** JavaScript's `Boolean(v)`: false, 0, -0, 0n, "", null, undefined and NaN
      are the falsy values. */
  predicate Truthy(v: JsValue) {
    match v
    case Undefined => false
    case Null => false
    case Bool(b) => b
    case Number(n) => n != 0.0
    case NaN => false
    case BigInt(i) => i != 0
    case Str(s) => s != ""
    case Object => true
  }

  /** JavaScript's `a && b`: the left operand when it is falsy, the right
      one otherwise. */
  function JsAnd(a: JsValue, b: JsValue): JsValue {
    if Truthy(a) then b else a
  }

  lemma JsAndTruthy(a: JsValue, b: JsValue)
    ensures Truthy(JsAnd(a, b)) <==> Truthy(a) && Truthy(b)
  {
  }

  /** The configuration input: top-level keys mapped to their values. */
  type Configuration = map<string, JsValue>

  /** `_.get(configuration, key)` for a single-segment path: undefined when
      the key is absent. */
  function Get(config: Configuration, key: string): JsValue {
    if key in config then config[key] else Undefined
  }

  /** The commands the integration supports, as joined command strings. */
  const SupportedCommands: set<string> := {"deploy", "deploy function", "package", "rollback"}

  /** Every command path whose space-joined form is a supported command. */
  const SupportedCommandPaths: set<seq<string>> :=
    {["deploy"], ["deploy function"], ["deploy", "function"], ["package"], ["rollback"]}

  /** `commands.join(' ')`: the elements separated by one space each; the
      empty path joins to the empty string. */
  function Join(commands: seq<string>): string {
    if |commands| == 0 then ""
    else if |commands| == 1 then commands[0]
    else commands[0] + " " + Join(commands[1..])
  }

  predicate SpaceFree(s: string) {
    forall k :: 0 <= k < |s| ==> s[k] != ' '
  }

  /** A path of two or more commands has a space right after its first
      command, and the rest of the joined string is the join of the rest. */
  lemma JoinCons(commands: seq<string>)
    requires |commands| >= 2
    ensures |commands[0]| < |Join(commands)| && Join(commands)[|commands[0]|] == ' '
    ensures Join(commands)[..|commands[0]|] == commands[0]
    ensures Join(commands)[|commands[0]| + 1..] == Join(commands[1..])
  {
  }

  /** The only path that joins to a non-empty space-free string is that
      string alone. */
  lemma JoinOfSpaceFree(commands: seq<string>, s: string)
    requires s != "" && SpaceFree(s) && Join(commands) == s
    ensures commands == [s]
  {
    if |commands| == 0 {
      assert false;
    } else if |commands| >= 2 {
      JoinCons(commands);
      assert false;
    } else {
      assert commands == [commands[0]];
    }
  }

  /** The single-word supported commands contain no space. */
  lemma SupportedSingleWordsSpaceFree()
    ensures SpaceFree("deploy") && SpaceFree("function")
    ensures SpaceFree("package") && SpaceFree("rollback")
  {
  }

  /** "deploy function" has its only space at index 6. */
  lemma DeployFunctionSpace(k: int)
    requires 0 <= k < |"deploy function"| && "deploy function"[k] == ' '
    ensures k == 6
  {
  }

  /** The joined command is supported exactly for the five command paths of
      SupportedCommandPaths: the separator is one space, so `deploy function`
      may arrive as one element or as two, and in no other shape. */
  lemma {:induction false} JoinSupported(commands: seq<string>)
    ensures Join(commands) in SupportedCommands <==> commands in SupportedCommandPaths
  {
    var s := Join(commands);
    SupportedSingleWordsSpaceFree();
    if commands in SupportedCommandPaths {
      if commands == ["deploy", "function"] {
        assert s == "deploy" + " " + Join(["function"]);
        assert s == "deploy function";
      } else {
        assert |commands| == 1 && s == commands[0];
        assert commands[0] in SupportedCommands;
      }
    }
    if s in SupportedCommands {
      if s == "deploy function" {
        if |commands| == 0 {
          assert false;
        } else if |commands| >= 2 {
          JoinCons(commands);
          DeployFunctionSpace(|commands[0]|);
          assert commands[0] == "deploy";
          JoinOfSpaceFree(commands[1..], "function");
          assert commands == [commands[0]] + commands[1..] == ["deploy", "function"];
        } else {
          assert commands == [s];
        }
      } else {
        assert s == "deploy" || s == "package" || s == "rollback";
        JoinOfSpaceFree(commands, s);
        assert commands == ["deploy"] || commands == ["package"] || commands == ["rollback"];
      }
    }
  }

  /** The `isEnabled` flag the constructor computes from the configuration
      and the invocation's command path. */
  function IsEnabled(config: Configuration, commands: seq<string>): (r: bool)
    ensures r <==> Join(commands) in SupportedCommands
                   && Truthy(Get(config, "console")) && Truthy(Get(config, "org"))
    ensures r <==> commands in SupportedCommandPaths
                   && Truthy(Get(config, "console")) && Truthy(Get(config, "org"))
  {
    JoinSupported(commands);
    JsAndTruthy(Get(config, "console"), Get(config, "org"));
    Join(commands) in SupportedCommands && Truthy(JsAnd(Get(config, "console"), Get(config, "org")))
  }

  /** Without a truthy `console` value the integration is off for every command. */
  lemma ConsoleRequired(config: Configuration, commands: seq<string>)
    requires !Truthy(Get(config, "console"))
    ensures !IsEnabled(config, commands)
  {
  }

  /** Without a truthy `org` value the integration is off for every command,
      whatever `console` says. */
  lemma OrgRequired(config: Configuration, commands: seq<string>)
    requires !Truthy(Get(config, "org"))
    ensures !IsEnabled(config, commands)
  {
  }

  /** A command outside the supported set leaves the integration off even
      when `console` and `org` are both set. */
  lemma UnsupportedCommandDisabled(config: Configuration, commands: seq<string>)
    requires Join(commands) !in SupportedCommands
    ensures !IsEnabled(config, commands)
  {
  }

  /** With `console` and `org` both truthy the decision is exactly command
      support. */
  lemma EnabledBySupportedCommand(config: Configuration, commands: seq<string>)
    requires Truthy(Get(config, "console")) && Truthy(Get(config, "org"))
    ensures IsEnabled(config, commands) <==> commands in SupportedCommandPaths
  {
  }

  /** The decision depends on the configuration only through the truthiness
      of `console` and `org`: any other key, and any other value of the same
      truthiness, leaves it unchanged. */
  lemma DependsOnlyOnConsoleAndOrg(c1: Configuration, c2: Configuration, commands: seq<string>)
    requires Truthy(Get(c1, "console")) == Truthy(Get(c2, "console"))
    requires Truthy(Get(c1, "org")) == Truthy(Get(c2, "org"))
    ensures IsEnabled(c1, commands) == IsEnabled(c2, commands)
  {
  }

  /** The command path is joined with a single space: `deploy function` given
      as two commands is supported, but not with an extra space or with none. */
  lemma SingleSpaceSeparator()
    ensures Join(["deploy", "function"]) in SupportedCommands
    ensures Join(["deploy", " function"]) !in SupportedCommands
    ensures Join(["deployfunction"]) !in SupportedCommands
  {
    JoinSupported(["deploy", "function"]);
    JoinSupported(["deploy", " function"]);
    JoinSupported(["deployfunction"]);
  }

  /** `package` with `console: true` and `org: 'testorg'` enables the integration. */
  lemma PackageWithConsoleAndOrg()
    ensures IsEnabled(map["console" := Bool(true), "org" := Str("testorg")], ["package"])
  {
  }

  /** `package` with only `org: 'testorg'` leaves the integration off. */
  lemma PackageWithoutConsole()
    ensures !IsEnabled(map["org" := Str("testorg")], ["package"])
  {
  }

  /** `print` is not a supported command, so it leaves the integration off. */
  lemma PrintUnsupported()
    ensures !IsEnabled(map["console" := Bool(true), "org" := Str("testorg")], ["print"])
  {
  }
}
