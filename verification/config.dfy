/** The server's settings (mcp_server/config.py): defaults, the field
    validators, and whether the Brobot CLI is usable. Environment and
    `.env` loading are replaced by an `Overrides` value holding the fields
    that were set; the file system is a `pathExists` oracle over paths as
    given and the working directory `cwd`. Settings validate their
    defaults too, so the validators run whether or not a field was set. */
module Config {
  import opened Basics

  datatype Settings = Settings(
    host: string,
    port: int,
    reload: bool,
    logLevel: string,
    brobotCliJar: Option<string>,
    javaExecutable: string,
    cliTimeout: real,
    useMockData: bool,
    apiVersion: string)

  /** The fields set in the environment. */
  datatype Overrides = Overrides(
    host: Option<string>,
    port: Option<int>,
    reload: Option<bool>,
    logLevel: Option<string>,
    brobotCliJar: Option<string>,
    javaExecutable: Option<string>,
    cliTimeout: Option<real>,
    useMockData: Option<bool>,
    apiVersion: Option<string>)

  const NoOverrides: Overrides := Overrides(None, None, None, None, None, None, None, None, None)

  const DefaultHost: string := "0.0.0.0"
  const DefaultPort: int := 8000
  const DefaultLogLevel: string := "info"
  const DefaultJavaExecutable: string := "java"
  const DefaultCliTimeout: real := 30.0
  const DefaultApiVersion: string := "v1"

  /** `validate_port`. */
  function ValidatePort(v: int): (r: Result<int, Text>)
    ensures r.Success? <==> 1 <= v <= 65535
    ensures r.Success? ==> r.value == v
    ensures r.Failure? ==> r.error == [Lit("Port must be between 1 and 65535, got "), Whole(v)]
  {
    if v <= 0 || v > 65535 then Failure([Lit("Port must be between 1 and 65535, got "), Whole(v)])
    else Success(v)
  }

  /** `validate_timeout`. */
  function ValidateTimeout(v: real): (r: Result<real, Text>)
    ensures r.Success? <==> v > 0.0
    ensures r.Success? ==> r.value == v
    ensures r.Failure? ==> r.error == [Lit("Timeout must be positive, got "), Num(v)]
  {
    if v <= 0.0 then Failure([Lit("Timeout must be positive, got "), Num(v)])
    else Success(v)
  }

  predicate IsAbsolute(p: string) {
    |p| > 0 && p[0] == '/'
  }

  /** `str(Path(p).absolute())` for a path without '.' segments, doubled
      or trailing slashes: an absolute path as it is, otherwise the path
      under the working directory. */
  function Absolute(p: string, cwd: string): (r: string)
    ensures IsAbsolute(p) ==> r == p
    ensures IsAbsolute(cwd) ==> IsAbsolute(r)
    ensures !IsAbsolute(p) && p != "" ==> r == (if cwd == "/" then "/" else cwd + "/") + p
  {
    if IsAbsolute(p) then p
    else if p == "" then cwd
    else (if cwd == "/" then "/" else cwd + "/") + p
  }

  /** Where the JAR is looked for when none is configured, in order; the
      last is the Docker image's location. */
  const JarCandidates: seq<string> := [
    "brobot-cli.jar",
    "brobot-cli/build/libs/brobot-cli.jar",
    "../brobot-cli.jar",
    "/app/brobot-cli.jar"]

  /** Index of the first existing path. */
  function FirstExisting(paths: seq<string>, pathExists: string -> bool): (r: Option<nat>)
    ensures r.Some? ==> r.value < |paths| && pathExists(paths[r.value]) &&
                        forall j :: 0 <= j < r.value ==> !pathExists(paths[j])
    ensures r.None? ==> forall j :: 0 <= j < |paths| ==> !pathExists(paths[j])
  {
    if paths == [] then None
    else if pathExists(paths[0]) then Some(0)
    else
      match FirstExisting(paths[1..], pathExists)
      case None => None
      case Some(k) => Some(k + 1)
  }

  /** `validate_jar_path`: without a configured JAR, the absolute form of
      the first candidate that exists, or None; a configured JAR is made
      absolute without checking that it exists. */
  function ValidateJarPath(v: Option<string>, pathExists: string -> bool, cwd: string): (r: Option<string>)
    ensures v.Some? ==> r == Some(Absolute(v.value, cwd))
    ensures v.None? ==> (r.None? <==> forall j :: 0 <= j < |JarCandidates| ==> !pathExists(JarCandidates[j]))
    ensures v.None? && r.Some? ==> exists k :: 0 <= k < |JarCandidates| && pathExists(JarCandidates[k]) &&
                                    r.value == Absolute(JarCandidates[k], cwd) &&
                                    forall j :: 0 <= j < k ==> !pathExists(JarCandidates[j])
    ensures IsAbsolute(cwd) && r.Some? ==> IsAbsolute(r.value)
  {
    if v.Some? then Some(Absolute(v.value, cwd))
    else
      match FirstExisting(JarCandidates, pathExists)
      case None => None
      case Some(k) => Some(Absolute(JarCandidates[k], cwd))
  }

  /** `Settings()`: every field from the environment or its default, the
      validators applied, and the messages of the failing ones collected
      in field order. */
  function LoadSettings(o: Overrides, pathExists: string -> bool, cwd: string): (r: Result<Settings, seq<Text>>)
    ensures r.Success? <==> 1 <= o.port.GetOr(DefaultPort) <= 65535 && o.cliTimeout.GetOr(DefaultCliTimeout) > 0.0
    ensures r.Success? ==> r.value.port == o.port.GetOr(DefaultPort) && r.value.cliTimeout == o.cliTimeout.GetOr(DefaultCliTimeout)
    ensures r.Success? ==> r.value.brobotCliJar == ValidateJarPath(o.brobotCliJar, pathExists, cwd)
    ensures r.Success? ==> r.value.host == o.host.GetOr(DefaultHost) && r.value.reload == o.reload.GetOr(true) &&
                           r.value.logLevel == o.logLevel.GetOr(DefaultLogLevel)
    ensures r.Success? ==> r.value.javaExecutable == o.javaExecutable.GetOr(DefaultJavaExecutable) &&
                           r.value.useMockData == o.useMockData.GetOr(true) && r.value.apiVersion == o.apiVersion.GetOr(DefaultApiVersion)
    ensures r.Failure? ==> 1 <= |r.error| <= 2
  {
    var port := ValidatePort(o.port.GetOr(DefaultPort));
    var timeout := ValidateTimeout(o.cliTimeout.GetOr(DefaultCliTimeout));
    if port.Success? && timeout.Success? then
      Success(Settings(
        o.host.GetOr(DefaultHost), port.value, o.reload.GetOr(true), o.logLevel.GetOr(DefaultLogLevel),
        ValidateJarPath(o.brobotCliJar, pathExists, cwd), o.javaExecutable.GetOr(DefaultJavaExecutable),
        timeout.value, o.useMockData.GetOr(true), o.apiVersion.GetOr(DefaultApiVersion)))
    else
      Failure((if port.Failure? then [port.error] else []) + (if timeout.Failure? then [timeout.error] else []))
  }

  /** `is_cli_configured`. */
  function IsCliConfigured(s: Settings, pathExists: string -> bool): (configured: bool)
    ensures configured <==> s.brobotCliJar.Some? && pathExists(s.brobotCliJar.value) && !s.useMockData
  {
    s.brobotCliJar.Some? && pathExists(s.brobotCliJar.value) && !s.useMockData
  }

  /** The default settings load, listen on port 8000 with a 30-second CLI
      timeout, and use mock data, so the CLI counts as not configured
      whatever the file system holds. */
  lemma DefaultsUseMockData(pathExists: string -> bool, cwd: string)
    ensures var r := LoadSettings(NoOverrides, pathExists, cwd);
            r.Success? && r.value.port == 8000 && r.value.cliTimeout == 30.0 && r.value.javaExecutable == "java" &&
            r.value.useMockData && !IsCliConfigured(r.value, pathExists)
  {
  }

  /** A configured JAR that exists makes the CLI configured exactly when
      mock data is switched off. */
  lemma ConfiguredJarEnablesCli(o: Overrides, pathExists: string -> bool, cwd: string)
    requires o.brobotCliJar.Some? && pathExists(Absolute(o.brobotCliJar.value, cwd))
    requires LoadSettings(o, pathExists, cwd).Success?
    ensures IsCliConfigured(LoadSettings(o, pathExists, cwd).value, pathExists) <==> o.useMockData == Some(false)
  {
  }
}
