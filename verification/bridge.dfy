/** The bridge between the server and the Brobot CLI
    (mcp_server/brobot_bridge.py). Running the JAR is a `Runner` oracle
    from an argument vector and a timeout in seconds to what the process
    did; `json.loads` and `json.dumps` are oracles too. A bridge is its
    configuration once validated; the module-global bridge is a
    registry object. */
module Bridge {
  import opened Basics

  /** What running a command did: it exited, it outlived its timeout, or
      it could not be run (the reason is the exception's text). */
  datatype ProcessOutcome = Exited(code: int, stdout: string, stderr: string) | TimedOut | LaunchFailed(reason: Text)

  type Runner = (seq<string>, real) -> ProcessOutcome

  /** `json.loads`: a document, or the decoder's message. */
  type Parser = string -> Result<Json, string>

  /** BrobotCLIError, FileNotFoundError and RuntimeError. */
  datatype BridgeError = CLIError(message: Text) | FileNotFound(message: Text) | RuntimeError(message: Text)

  /** The dictionary `_run_command` returns. */
  datatype CommandResult = CommandResult(success: bool, output: string, error: Option<Text>)

  datatype CLIConfig = CLIConfig(jarPath: string, javaExecutable: string, defaultTimeout: real)

  const DefaultJavaExecutable: string := "java"
  const DefaultCliTimeout: real := 30.0
  /** The timeout of the `--version` and `--help` probes. */
  const ProbeTimeout: real := 5.0

  /** `CLIConfig(jar_path, java_executable, default_timeout)`: the JAR
      must exist. */
  function NewCLIConfig(jarPath: string, javaExecutable: string, defaultTimeout: real, pathExists: string -> bool): (r: Result<CLIConfig, BridgeError>)
    ensures r.Success? <==> pathExists(jarPath)
    ensures r.Success? ==> r.value == CLIConfig(jarPath, javaExecutable, defaultTimeout)
    ensures r.Failure? ==> r.error == FileNotFound([Lit("Brobot CLI JAR not found at: "), Lit(jarPath)])
  {
    if !pathExists(jarPath) then Failure(FileNotFound([Lit("Brobot CLI JAR not found at: "), Lit(jarPath)]))
    else Success(CLIConfig(jarPath, javaExecutable, defaultTimeout))
  }

  /** The command line: `java -jar <jar>` followed by the arguments. */
  function Argv(config: CLIConfig, args: seq<string>): (argv: seq<string>)
    ensures |argv| == 3 + |args| && argv[3..] == args
    ensures argv[0] == config.javaExecutable && argv[1] == "-jar" && argv[2] == config.jarPath
  {
    [config.javaExecutable, "-jar", config.jarPath] + args
  }

  /** The timeout `_run_command` uses: the configured default when none
      (or None) is given, otherwise the given value unchanged. */
  function EffectiveTimeout(timeout: Option<Json>, defaultTimeout: real): (t: Json)
    ensures timeout.None? || timeout.value == JNull ==> t == JReal(defaultTimeout)
    ensures timeout.Some? && timeout.value != JNull ==> t == timeout.value
  {
    if timeout.None? || timeout.value == JNull then JReal(defaultTimeout) else timeout.value
  }

  /** The seconds a timeout value stands for, if it is a number (bool
      counts as int). */
  function Seconds(t: Json): (s: Option<real>)
    ensures s.Some? <==> t.JInt? || t.JReal? || t.JBool?
    ensures t.JReal? ==> s == Some(t.r)
    ensures t.JInt? ==> s == Some(t.i as real)
  {
    match t
    case JInt(i) => Some(i as real)
    case JReal(x) => Some(x)
    case JBool(b) => Some(if b then 1.0 else 0.0)
    case _ => None
  }

  /** The result of a process that exited. */
  function Interpret(code: int, stdout: string, stderr: string): (r: CommandResult)
    ensures r.success <==> code == 0
    ensures r.output == stdout
    ensures r.error.None? <==> code == 0
    ensures code != 0 && stderr != "" ==> r.error == Some([Lit(stderr)])
    ensures code != 0 && stderr == "" ==> r.error == Some([Lit("Command failed with code "), Whole(code)])
    ensures !r.success ==> r.error.Some? && NonBlank(r.error.value)
  {
    if code == 0 then CommandResult(true, stdout, None)
    else
      var error := if stderr != "" then [Lit(stderr)] else [Lit("Command failed with code "), Whole(code)];
      assert Visible(error[0]);
      CommandResult(false, stdout, Some(error))
  }

  /** `_run_command`. A timeout that is not a number makes the process
      wait fail with a TypeError, which is reported like any failure to
      run the command. */
  function RunCommand(config: CLIConfig, args: seq<string>, timeout: Option<Json>, run: Runner): (r: Result<CommandResult, BridgeError>)
    ensures var t := EffectiveTimeout(timeout, config.defaultTimeout);
            Seconds(t).None? ==> r == Failure(CLIError([Lit("Failed to run command: unsupported operand type(s) for +: 'float' and '"),
                                                        Lit(TypeName(t)), Lit("'")]))
    ensures var t := EffectiveTimeout(timeout, config.defaultTimeout);
            Seconds(t).Some? ==>
              var o := run(Argv(config, args), Seconds(t).value);
              (r.Success? <==> o.Exited?) &&
              (o.Exited? ==> r.value == Interpret(o.code, o.stdout, o.stderr)) &&
              (o.TimedOut? ==> r.error == CLIError([Lit("Command timed out after "), Shown(t), Lit(" seconds")])) &&
              (o.LaunchFailed? ==> r.error == CLIError([Lit("Failed to run command: ")] + o.reason))
    ensures r.Failure? ==> r.error.CLIError?
    ensures r.Success? && !r.value.success ==> r.value.error.Some? && NonBlank(r.value.error.value)
  {
    var t := EffectiveTimeout(timeout, config.defaultTimeout);
    match Seconds(t)
    case None =>
      Failure(CLIError([Lit("Failed to run command: unsupported operand type(s) for +: 'float' and '"), Lit(TypeName(t)), Lit("'")]))
    case Some(seconds) =>
      match run(Argv(config, args), seconds)
      case Exited(code, stdout, stderr) => Success(Interpret(code, stdout, stderr))
      case TimedOut => Failure(CLIError([Lit("Command timed out after "), Shown(t), Lit(" seconds")]))
      case LaunchFailed(reason) => Failure(CLIError([Lit("Failed to run command: ")] + reason))
  }

  /** The shared tail of the three typed operations: a failed command
      raises with `prefix` and the command's error, an unparseable output
      raises, and a parsed document is returned as it is. */
  function Fetch(result: Result<CommandResult, BridgeError>, prefix: string, parse: Parser): (r: Result<Json, BridgeError>)
    requires result.Success? && !result.value.success ==> result.value.error.Some?
    ensures result.Failure? ==> r == Failure(result.error)
    ensures result.Success? && !result.value.success ==> r == Failure(CLIError([Lit(prefix)] + result.value.error.value))
    ensures result.Success? && result.value.success ==>
              var parsed := parse(result.value.output);
              (parsed.Success? ==> r == Success(parsed.value)) &&
              (parsed.Failure? ==> r == Failure(CLIError([Lit("Invalid JSON response from CLI: "), Lit(parsed.error)])))
  {
    match result
    case Failure(e) => Failure(e)
    case Success(command) =>
      if !command.success then Failure(CLIError([Lit(prefix)] + command.error.value))
      else
        match parse(command.output)
        case Failure(message) => Failure(CLIError([Lit("Invalid JSON response from CLI: "), Lit(message)]))
        case Success(document) => Success(document)
  }

  /** A BrobotBridge: a configuration whose CLI answered `--version`. */
  datatype Bridge = Bridge(config: CLIConfig) {
    /** `get_state_structure`: exactly the one command, default timeout. */
    function GetStateStructure(run: Runner, parse: Parser): (r: Result<Json, BridgeError>)
      ensures r == Fetch(RunCommand(config, ["get-state-structure"], None, run), "Failed to get state structure: ", parse)
      ensures r.Failure? ==> r.error.CLIError?
    {
      Fetch(RunCommand(config, ["get-state-structure"], None, run), "Failed to get state structure: ", parse)
    }

    /** `get_observation`. */
    function GetObservation(run: Runner, parse: Parser): (r: Result<Json, BridgeError>)
      ensures r == Fetch(RunCommand(config, ["get-observation"], None, run), "Failed to get observation: ", parse)
      ensures r.Failure? ==> r.error.CLIError?
    {
      Fetch(RunCommand(config, ["get-observation"], None, run), "Failed to get observation: ", parse)
    }

    /** `execute_action`: the request travels as one JSON argument, and
        its "timeout" entry, when present, is the command's timeout, with
        no check that it is positive. */
    function ExecuteAction(request: map<string, Json>, run: Runner, parse: Parser, dumps: Json -> string): (r: Result<Json, BridgeError>)
      ensures var timeout := if "timeout" in request then request["timeout"] else JReal(config.defaultTimeout);
              r == Fetch(RunCommand(config, ["execute-action", dumps(JObj(request))], Some(timeout), run), "Failed to execute action: ", parse)
      ensures r.Failure? ==> r.error.CLIError?
    {
      var payload := dumps(JObj(request));
      var timeout := if "timeout" in request then request["timeout"] else JReal(config.defaultTimeout);
      Fetch(RunCommand(config, ["execute-action", payload], Some(timeout), run), "Failed to execute action: ", parse)
    }

    /** `is_available`: whether `--help` exits with 0; never raises. */
    function IsAvailable(run: Runner): (available: bool)
      ensures available <==> run(Argv(config, ["--help"]), ProbeTimeout).Exited? && run(Argv(config, ["--help"]), ProbeTimeout).code == 0
    {
      match RunCommand(config, ["--help"], Some(JReal(ProbeTimeout)), run)
      case Success(result) => result.success
      case Failure(_) => false
    }
  }

  /** `BrobotBridge(config)`: validation runs `--version` and fails only
      when that raises; a non-zero exit is accepted. */
  function NewBridge(config: CLIConfig, run: Runner): (r: Result<Bridge, BridgeError>)
    ensures var o := run(Argv(config, ["--version"]), ProbeTimeout);
            r.Success? <==> o.Exited?
    ensures r.Success? ==> r.value.config == config
    ensures var o := run(Argv(config, ["--version"]), ProbeTimeout);
            r.Failure? ==> r.error == CLIError([Lit("Failed to validate Brobot CLI: ")] +
                                               RunCommand(config, ["--version"], Some(JReal(ProbeTimeout)), run).error.message)
  {
    match RunCommand(config, ["--version"], Some(JReal(ProbeTimeout)), run)
    case Failure(e) => Failure(CLIError([Lit("Failed to validate Brobot CLI: ")] + e.message))
    case Success(_) => Success(Bridge(config))
  }

  /** Passing a timeout through `EffectiveTimeout`: absent or None means
      the default, a number is used as it is. */
  lemma TimeoutSelection(config: CLIConfig, args: seq<string>, x: real, run: Runner)
    ensures RunCommand(config, args, None, run) == RunCommand(config, args, Some(JReal(config.defaultTimeout)), run)
    ensures RunCommand(config, args, Some(JNull), run) == RunCommand(config, args, None, run)
    ensures var o := run(Argv(config, args), x);
            o.Exited? ==> RunCommand(config, args, Some(JReal(x)), run) == Success(Interpret(o.code, o.stdout, o.stderr))
  {
    var d := config.defaultTimeout;
    assert EffectiveTimeout(None, d) == EffectiveTimeout(Some(JReal(d)), d) == EffectiveTimeout(Some(JNull), d);
  }

  /** An action request without a "timeout" entry runs with the default
      timeout, exactly like the two fetch operations. */
  lemma ActionWithoutTimeoutUsesDefault(b: Bridge, request: map<string, Json>, run: Runner, parse: Parser, dumps: Json -> string)
    requires "timeout" !in request
    ensures b.ExecuteAction(request, run, parse, dumps) ==
            Fetch(RunCommand(b.config, ["execute-action", dumps(JObj(request))], None, run), "Failed to execute action: ", parse)
  {
    TimeoutSelection(b.config, ["execute-action", dumps(JObj(request))], b.config.defaultTimeout, run);
  }

  /** End to end, for each way the `get-state-structure` command can end:
      a parsed document comes back unchanged, and every other ending
      raises BrobotCLIError with its own message. */
  lemma StateStructureOutcomes(b: Bridge, run: Runner, parse: Parser)
    ensures var o := run(Argv(b.config, ["get-state-structure"]), b.config.defaultTimeout);
            var r := b.GetStateStructure(run, parse);
            (o.Exited? && o.code == 0 && parse(o.stdout).Success? ==> r == Success(parse(o.stdout).value)) &&
            (o.Exited? && o.code == 0 && parse(o.stdout).Failure? ==>
               r == Failure(CLIError([Lit("Invalid JSON response from CLI: "), Lit(parse(o.stdout).error)]))) &&
            (o.Exited? && o.code != 0 ==>
               r.Failure? && r.error.message[0] == Lit("Failed to get state structure: ") && NonBlank(r.error.message[1..])) &&
            (o.TimedOut? ==> r == Failure(CLIError([Lit("Command timed out after "), Shown(JReal(b.config.defaultTimeout)), Lit(" seconds")])))
  {
    var o := run(Argv(b.config, ["get-state-structure"]), b.config.defaultTimeout);
    var result := RunCommand(b.config, ["get-state-structure"], None, run);
    if o.Exited? && o.code != 0 {
      var error := result.value.error.value;
      assert b.GetStateStructure(run, parse).error.message[1..] == error;
    }
  }

  /** The module-global bridge. */
  class BridgeRegistry {
    var bridge: Option<Bridge>

    constructor()
      ensures bridge.None?
    {
      bridge := None;
    }

    /** `initialize_bridge`: builds a configuration with the default
        timeout and validates it; only a bridge that was built replaces
        the current one. */
    method InitializeBridge(jarPath: string, javaExecutable: string, pathExists: string -> bool, run: Runner)
      returns (error: Option<BridgeError>)
      modifies this
      ensures var config := NewCLIConfig(jarPath, javaExecutable, DefaultCliTimeout, pathExists);
              error.None? <==> config.Success? && NewBridge(config.value, run).Success?
      ensures error.None? ==> bridge == Some(Bridge(CLIConfig(jarPath, javaExecutable, DefaultCliTimeout)))
      ensures error.Some? ==> bridge == old(bridge)
      ensures !pathExists(jarPath) ==> error == Some(FileNotFound([Lit("Brobot CLI JAR not found at: "), Lit(jarPath)]))
      ensures var config := NewCLIConfig(jarPath, javaExecutable, DefaultCliTimeout, pathExists);
              config.Success? && NewBridge(config.value, run).Failure? ==> error == Some(NewBridge(config.value, run).error)
    {
      var config := NewCLIConfig(jarPath, javaExecutable, DefaultCliTimeout, pathExists);
      if config.Failure? {
        return Some(config.error);
      }
      var built := NewBridge(config.value, run);
      if built.Failure? {
        return Some(built.error);
      }
      bridge := Some(built.value);
      error := None;
    }

    /** `get_bridge`. */
    function GetBridge(): (r: Result<Bridge, BridgeError>)
      reads this
      ensures r.Success? <==> bridge.Some?
      ensures bridge.Some? ==> r.value == bridge.value
      ensures bridge.None? ==> r.error == RuntimeError(Say("Brobot bridge not initialized. Call initialize_bridge() first."))
    {
      match bridge
      case None => Failure(RuntimeError(Say("Brobot bridge not initialized. Call initialize_bridge() first.")))
      case Some(b) => Success(b)
    }
  }
}
