/**
  The rollback step: the `dotnet ef database update <target>` invocation that
  takes the database back to a given migration. The model stops where the
  source hands the command to the process runner: it returns the invocation
  (executable, arguments, environment, working directory and output mode)
  instead of running it.
 */
module Rollback {
  import Inputs

  datatype Option<T> = None | Some(value: T)

  /** Buffered (`getExecOutput`) or streamed (`exec`) subprocess output. */
  datatype OutputMode = Captured | Streamed

  /** One subprocess invocation as handed to the process runner. */
  datatype Invocation = Invocation(
    executable: string,
    args: seq<string>,
    env: map<string, string>,
    cwd: string,
    mode: OutputMode)

  /** The command name of a globally installed EF Core tool. */
  const GlobalTool := "dotnet-ef"

  /** The indirection that runs the EF Core tool as a local .NET tool. */
  const LocalToolPrefix: seq<string> := ["tool", "run", "dotnet-ef"]

  /** The EF Core verb that moves the database to `target`. */
  function UpdateArgs(target: string): seq<string> {
    ["database", "update", target]
  }

  /** `rollbackArgs`: the bare verb for a global tool, behind the local-tool
      indirection otherwise. */
  function RollbackArgs(useGlobalDotnetEf: bool, targetMigration: string): seq<string> {
    if useGlobalDotnetEf then UpdateArgs(targetMigration)
    else LocalToolPrefix + UpdateArgs(targetMigration)
  }

  /** `dotnet-ef` for a global tool, the configured dotnet executable
      otherwise. */
  function Executable(useGlobalDotnetEf: bool, dotnetRoot: string): string {
    if useGlobalDotnetEf then GlobalTool else dotnetRoot
  }

  /** `process.env.HOME || home`, with an unset variable written None. */
  function HomeFor(processHome: Option<string>, home: string): string {
    if processHome.Some? && processHome.value != "" then processHome.value else home
  }

  /** `baseEnv`: the environment handed to the subprocess. */
  function BaseEnv(dotnetRoot: string, processHome: Option<string>, home: string, envName: string): map<string, string> {
    map["DOTNET_ROOT" := dotnetRoot, "HOME" := HomeFor(processHome, home), "ASPNETCORE_ENVIRONMENT" := envName]
  }

  /** `rollbackMigrations`, up to the call of the process runner. The value of
      the HOME environment variable of the running process is the parameter
      `processHome`. */
  function RollbackMigrations(
    getExecOutput: bool,
    envName: string,
    home: string,
    migrationsFolder: string,
    dotnetRoot: string,
    useGlobalDotnetEf: bool,
    targetMigration: string,
    processHome: Option<string>): (inv: Invocation)
    ensures inv.cwd == migrationsFolder
    ensures inv.env.Keys == {"DOTNET_ROOT", "HOME", "ASPNETCORE_ENVIRONMENT"}
    ensures inv.env["DOTNET_ROOT"] == dotnetRoot && inv.env["ASPNETCORE_ENVIRONMENT"] == envName
    ensures inv.mode == Captured <==> getExecOutput
  {
    Invocation(
      executable := Executable(useGlobalDotnetEf, dotnetRoot),
      args := RollbackArgs(useGlobalDotnetEf, targetMigration),
      env := BaseEnv(dotnetRoot, processHome, home, envName),
      cwd := migrationsFolder,
      mode := if getExecOutput then Captured else Streamed)
  }

  // ---------------------------------------------------------------------
  // Reading an argument list back

  /** What the EF Core tool is asked to do by an argument list: whether the
      global tool is called directly (`useGlobalDotnetEf`), and the migration
      that `database update` moves to. None for any other argument list. */
  function DecodeRollbackArgs(args: seq<string>): Option<(bool, string)> {
    if |args| == 3 && args[0] == "database" && args[1] == "update" then
      Some((true, args[2]))
    else if |args| == 6 && args[..3] == LocalToolPrefix && args[3] == "database" && args[4] == "update" then
      Some((false, args[5]))
    else
      None
  }

  /** Decoding recovers the tool mode and the target the arguments were
      built from. */
  lemma ArgsRoundTrip(useGlobalDotnetEf: bool, targetMigration: string)
    ensures DecodeRollbackArgs(RollbackArgs(useGlobalDotnetEf, targetMigration)) == Some((useGlobalDotnetEf, targetMigration))
  {
    var args := RollbackArgs(useGlobalDotnetEf, targetMigration);
    if !useGlobalDotnetEf {
      assert args[..3] == LocalToolPrefix;
      assert args[0] == "tool" && "tool" != "database";
      assert "tool"[0] != "database"[0];
    }
  }

  /** Different modes or targets never give the same argument list. */
  lemma RollbackArgsInjective(g1: bool, t1: string, g2: bool, t2: string)
    requires RollbackArgs(g1, t1) == RollbackArgs(g2, t2)
    ensures g1 == g2 && t1 == t2
  {
    ArgsRoundTrip(g1, t1);
    ArgsRoundTrip(g2, t2);
  }

  // ---------------------------------------------------------------------
  // Properties of the invocation

  /** The global form is exactly `database update <target>`; the local form
      is the local-tool indirection followed by the global form, three
      arguments longer. */
  lemma ArgumentShape(targetMigration: string)
    ensures RollbackArgs(true, targetMigration) == ["database", "update", targetMigration]
    ensures RollbackArgs(false, targetMigration) == ["tool", "run", "dotnet-ef"] + RollbackArgs(true, targetMigration)
    ensures |RollbackArgs(false, targetMigration)| == |RollbackArgs(true, targetMigration)| + 3
  {
  }

  /** In both modes the arguments end with `database update <target>`, so
      the last argument is always the target migration. */
  lemma ArgumentsEndWithUpdate(useGlobalDotnetEf: bool, targetMigration: string)
    ensures var args := RollbackArgs(useGlobalDotnetEf, targetMigration);
      && |args| >= 3
      && args[|args| - 3..] == ["database", "update", targetMigration]
      && args[|args| - 1] == targetMigration
  {
  }

  /** The executable is `dotnet-ef` for a global tool and `dotnetRoot`
      otherwise; the arguments are the matching shape. */
  lemma ExecutableChoice(
    getExecOutput: bool, envName: string, home: string, migrationsFolder: string,
    dotnetRoot: string, useGlobalDotnetEf: bool, targetMigration: string, processHome: Option<string>)
    ensures var inv := RollbackMigrations(getExecOutput, envName, home, migrationsFolder, dotnetRoot, useGlobalDotnetEf, targetMigration, processHome);
      && (useGlobalDotnetEf ==> inv.executable == "dotnet-ef")
      && (!useGlobalDotnetEf ==> inv.executable == dotnetRoot)
      && DecodeRollbackArgs(inv.args) == Some((useGlobalDotnetEf, targetMigration))
  {
    ArgsRoundTrip(useGlobalDotnetEf, targetMigration);
  }

  /** HOME is the process's own HOME when that is set and non-empty, and the
      `home` parameter otherwise. */
  lemma HomeFallback(
    getExecOutput: bool, envName: string, home: string, migrationsFolder: string,
    dotnetRoot: string, useGlobalDotnetEf: bool, targetMigration: string, processHome: Option<string>)
    ensures var inv := RollbackMigrations(getExecOutput, envName, home, migrationsFolder, dotnetRoot, useGlobalDotnetEf, targetMigration, processHome);
      && (processHome.Some? && processHome.value != "" ==> inv.env["HOME"] == processHome.value)
      && (processHome.None? || processHome == Some("") ==> inv.env["HOME"] == home)
  {
  }

  /** `getExecOutput` only chooses capturing over streaming: executable,
      arguments, environment and working directory are the same either way. */
  lemma OutputModeOnlyChoosesCapture(
    envName: string, home: string, migrationsFolder: string,
    dotnetRoot: string, useGlobalDotnetEf: bool, targetMigration: string, processHome: Option<string>)
    ensures var captured := RollbackMigrations(true, envName, home, migrationsFolder, dotnetRoot, useGlobalDotnetEf, targetMigration, processHome);
      var streamed := RollbackMigrations(false, envName, home, migrationsFolder, dotnetRoot, useGlobalDotnetEf, targetMigration, processHome);
      && captured.mode == Captured && streamed.mode == Streamed
      && captured.(mode := Streamed) == streamed
  {
  }

  /** Fed from a resolved configuration, the rollback invocation names a
      non-empty executable and working directory, and every variable it sets
      is non-empty. */
  lemma ResolvedRollbackIsWellFormed(raw: Inputs.RawInputs, targetMigration: string, processHome: Option<string>)
    ensures var c := Inputs.GetInputs(raw);
      var inv := RollbackMigrations(c.getExecOutput, c.envName, c.home, c.migrationsFolder,
                                    c.dotnetRoot, c.useGlobalDotnetEf, targetMigration, processHome);
      && inv.executable != ""
      && inv.cwd != ""
      && forall name :: name in inv.env ==> inv.env[name] != ""
  {
  }
}
