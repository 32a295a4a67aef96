/**
  The action's input resolver: one pure function from the raw action inputs
  (input name to string, an absent input reading as the empty string) to the
  resolved `ActionInputs` record, with the documented defaults applied.
 */
module Inputs {
  import opened AsciiText

  /** The raw inputs as the runner hands them over: name to string. */
  type RawInputs = map<string, string>

  /** The value of one raw input; an absent input reads as "". */
  function Get(raw: RawInputs, name: string): string {
    if name in raw then raw[name] else ""
  }

  /** The resolved configuration, one field per action input. */
  datatype ActionInputs = ActionInputs(
    testFolder: string,
    migrationsFolder: string,
    envName: string,
    home: string,
    skipMigrations: bool,
    skipTests: bool,
    dotnetRoot: string,
    useGlobalDotnetEf: bool,
    getExecOutput: bool,
    testOutputFolder: string,
    testFormat: string,
    rollbackMigrationsOnTestFailed: bool)

  /** The fields of `ActionInputs`, each named after the input it comes from. */
  datatype Field =
    | TestFolder | MigrationsFolder | EnvName | Home | SkipMigrations | SkipTests
    | DotnetRoot | UseGlobalDotnetEf | GetExecOutput | TestOutputFolder | TestFormat
    | RollbackMigrationsOnTestFailed

  /** The name of the action input behind each field. */
  function InputName(f: Field): string {
    match f
    case TestFolder => "testFolder"
    case MigrationsFolder => "migrationsFolder"
    case EnvName => "envName"
    case Home => "home"
    case SkipMigrations => "skipMigrations"
    case SkipTests => "skipTests"
    case DotnetRoot => "dotnetRoot"
    case UseGlobalDotnetEf => "useGlobalDotnetEf"
    case GetExecOutput => "getExecOutput"
    case TestOutputFolder => "testOutputFolder"
    case TestFormat => "testFormat"
    case RollbackMigrationsOnTestFailed => "rollbackMigrationsOnTestFailed"
  }

  const DefaultDotnetRoot := "/usr/bin/dotnet"
  const DefaultEnvName := "Test"
  const DefaultHome := "/home/node"
  const DefaultMigrationsFolder := "./sample-project/sample-project.MVC"
  const DefaultTestFolder := "./sample-project/sample-project.Tests"
  const DefaultTestFormat := "html"
  const TestResultsSuffix := "/TestResults"
  const DefaultRollback := "true"

  /** JavaScript `value || fallback` on strings: only "" is falsy. */
  function OrDefault(value: string, fallback: string): string {
    if value != "" then value else fallback
  }

  /** Strict flag parsing: `raw === 'true'`. */
  function ParseStrictFlag(raw: string): bool {
    raw == "true"
  }

  /** The rollback flag: `(raw || 'true').trim().toLowerCase() === 'true'`. */
  function ParseRollbackFlag(raw: string): bool {
    ToLower(Trim(OrDefault(raw, DefaultRollback))) == "true"
  }

  predicate StringFieldsNonEmpty(r: ActionInputs) {
    && r.testFolder != ""
    && r.migrationsFolder != ""
    && r.envName != ""
    && r.home != ""
    && r.dotnetRoot != ""
    && r.testOutputFolder != ""
    && r.testFormat != ""
  }

  /** `getInputs`: the resolved configuration. Whatever the raw inputs, no
      string field of the result is empty. */
  function GetInputs(raw: RawInputs): (r: ActionInputs)
    ensures StringFieldsNonEmpty(r)
  {
    var testFolder := OrDefault(Get(raw, InputName(TestFolder)), DefaultTestFolder);
    ActionInputs(
      testFolder := testFolder,
      migrationsFolder := OrDefault(Get(raw, InputName(MigrationsFolder)), DefaultMigrationsFolder),
      envName := OrDefault(Get(raw, InputName(EnvName)), DefaultEnvName),
      home := OrDefault(Get(raw, InputName(Home)), DefaultHome),
      skipMigrations := ParseStrictFlag(Get(raw, InputName(SkipMigrations))),
      skipTests := ParseStrictFlag(Get(raw, InputName(SkipTests))),
      dotnetRoot := OrDefault(Get(raw, InputName(DotnetRoot)), DefaultDotnetRoot),
      useGlobalDotnetEf := ParseStrictFlag(Get(raw, InputName(UseGlobalDotnetEf))),
      getExecOutput := ParseStrictFlag(Get(raw, InputName(GetExecOutput))),
      testOutputFolder := OrDefault(Get(raw, InputName(TestOutputFolder)), testFolder + TestResultsSuffix),
      testFormat := OrDefault(Get(raw, InputName(TestFormat)), DefaultTestFormat),
      rollbackMigrationsOnTestFailed := ParseRollbackFlag(Get(raw, InputName(RollbackMigrationsOnTestFailed))))
  }

  // ---------------------------------------------------------------------
  // Strict flags

  /** The four strict flags are on exactly when their raw input is "true". */
  lemma StrictFlagsExact(raw: RawInputs)
    ensures var r := GetInputs(raw);
      && (r.getExecOutput <==> Get(raw, "getExecOutput") == "true")
      && (r.skipMigrations <==> Get(raw, "skipMigrations") == "true")
      && (r.useGlobalDotnetEf <==> Get(raw, "useGlobalDotnetEf") == "true")
      && (r.skipTests <==> Get(raw, "skipTests") == "true")
  {
  }

  /** Only the lower-case spelling turns a strict flag on: every other
      casing of "true" leaves it off. */
  lemma StrictFlagIsCaseSensitive(w: string)
    requires SpellsTrue(w) && w != "true"
    ensures !ParseStrictFlag(w)
  {
  }

  /** "True", "TRUE" and an absent input all leave a strict flag off. */
  lemma StrictFlagRejectsCommonSpellings()
    ensures !ParseStrictFlag("True") && !ParseStrictFlag("TRUE") && !ParseStrictFlag("")
  {
  }

  // ---------------------------------------------------------------------
  // String inputs and their defaults

  /** A non-empty raw string is kept as given; an empty one gives the
      documented default. */
  lemma StringDefaults(raw: RawInputs)
    ensures var r := GetInputs(raw);
      && r.dotnetRoot == (if Get(raw, "dotnetRoot") == "" then "/usr/bin/dotnet" else Get(raw, "dotnetRoot"))
      && r.envName == (if Get(raw, "envName") == "" then "Test" else Get(raw, "envName"))
      && r.home == (if Get(raw, "home") == "" then "/home/node" else Get(raw, "home"))
      && r.migrationsFolder == (if Get(raw, "migrationsFolder") == "" then "./sample-project/sample-project.MVC" else Get(raw, "migrationsFolder"))
      && r.testFolder == (if Get(raw, "testFolder") == "" then "./sample-project/sample-project.Tests" else Get(raw, "testFolder"))
      && r.testFormat == (if Get(raw, "testFormat") == "" then "html" else Get(raw, "testFormat"))
  {
  }

  /** `testOutputFolder` is the raw value when there is one, and otherwise
      the RESOLVED test folder followed by "/TestResults" (so the default
      test folder shows through when both inputs are absent). */
  lemma TestOutputFolderDerived(raw: RawInputs)
    ensures var r := GetInputs(raw);
      && (Get(raw, "testOutputFolder") != "" ==> r.testOutputFolder == Get(raw, "testOutputFolder"))
      && (Get(raw, "testOutputFolder") == "" ==> r.testOutputFolder == r.testFolder + "/TestResults")
      && (Get(raw, "testOutputFolder") == "" && Get(raw, "testFolder") == "" ==>
            r.testOutputFolder == "./sample-project/sample-project.Tests/TestResults")
  {
    DefaultTestOutputFolder();
  }

  lemma DefaultTestOutputFolder()
    ensures DefaultTestFolder + TestResultsSuffix == "./sample-project/sample-project.Tests/TestResults"
  {
  }

  // ---------------------------------------------------------------------
  // The rollback flag

  /** `s` is "true" in any letter case, surrounded only by white space. */
  predicate PaddedTrue(s: string) {
    exists i :: 0 <= i <= |s| - 4 && AllSpace(s[..i]) && SpellsTrue(s[i..i + 4]) && AllSpace(s[i + 4..])
  }

  /** A trimmed, lower-cased string equals "true" only if the untrimmed one
      is a padded spelling of "true". */
  lemma TrimLowerTrueIsPadded(s: string)
    requires ToLower(Trim(s)) == "true"
    ensures PaddedTrue(s)
  {
    var t := Trim(s);
    LowerIsTrue(t);
    var i := LeadingSpaces(s);
    assert t == s[i..i + 4];
    assert AllSpace(s[..i]) && SpellsTrue(s[i..i + 4]) && AllSpace(s[i + 4..]);
  }

  lemma SplitInThree(s: string, i: nat, j: nat)
    requires i <= j <= |s|
    ensures s == s[..i] + s[i..j] + s[j..]
  {
  }

  lemma SpelledTrueIsUnpadded(w: string)
    requires SpellsTrue(w)
    ensures Unpadded(w)
  {
  }

  /** Every padded spelling of "true" trims and lower-cases to "true". */
  lemma PaddedTrimsToTrue(s: string)
    requires PaddedTrue(s)
    ensures ToLower(Trim(s)) == "true"
  {
    var i :| 0 <= i <= |s| - 4 && AllSpace(s[..i]) && SpellsTrue(s[i..i + 4]) && AllSpace(s[i + 4..]);
    var p, w, q := s[..i], s[i..i + 4], s[i + 4..];
    SplitInThree(s, i, i + 4);
    SpelledTrueIsUnpadded(w);
    TrimOfPadded(p, w, q);
    LowerIsTrue(w);
  }

  /** The default value "true" parses as on. */
  lemma DefaultRollbackIsOn()
    ensures ToLower(Trim(DefaultRollback)) == "true"
  {
    assert DefaultRollback[..0] == "" && DefaultRollback[0..4] == "true" && DefaultRollback[4..] == "";
    PaddedTrimsToTrue(DefaultRollback);
  }

  /** The rollback flag is on exactly when its raw input is absent, or is
      "true" in any letter case with any white space around it. */
  lemma RollbackFlagAccepts(raw: string)
    ensures ParseRollbackFlag(raw) <==> raw == "" || PaddedTrue(raw)
  {
    if raw == "" {
      DefaultRollbackIsOn();
    } else {
      if ToLower(Trim(raw)) == "true" { TrimLowerTrueIsPadded(raw); }
      if PaddedTrue(raw) { PaddedTrimsToTrue(raw); }
    }
  }

  /** Absent, the rollback flag is on. */
  lemma RollbackOnByDefault(raw: RawInputs)
    requires Get(raw, "rollbackMigrationsOnTestFailed") == ""
    ensures GetInputs(raw).rollbackMigrationsOnTestFailed
  {
    RollbackFlagAccepts("");
  }

  /** The resolved rollback flag is on exactly when the trimmed, lower-cased
      raw value (or "true" when it is absent) is "true". */
  lemma RollbackFlagResolved(raw: RawInputs)
    ensures var v := Get(raw, "rollbackMigrationsOnTestFailed");
      GetInputs(raw).rollbackMigrationsOnTestFailed <==> v == "" || PaddedTrue(v)
  {
    RollbackFlagAccepts(Get(raw, "rollbackMigrationsOnTestFailed"));
  }

  /** A raw rollback input made of white space only is not absent, so the
      default does not apply, and it trims to "": the flag is off. */
  lemma BlankRollbackInputIsOff(raw: string)
    requires raw != "" && AllSpace(raw)
    ensures !ParseRollbackFlag(raw)
  {
    RollbackFlagAccepts(raw);
  }

  /** The two parsing rules disagree on every padded or re-cased spelling of
      "true": it leaves a strict flag off and turns the rollback flag on. */
  lemma ParsingRulesDisagree(p: string, w: string, q: string)
    requires AllSpace(p) && AllSpace(q) && SpellsTrue(w) && p + w + q != "true"
    ensures !ParseStrictFlag(p + w + q) && ParseRollbackFlag(p + w + q)
  {
    var s := p + w + q;
    assert s[..|p|] == p && s[|p|..|p| + 4] == w && s[|p| + 4..] == q;
    RollbackFlagAccepts(s);
  }

  /** The same raw value "TRUE" leaves `skipTests` off and turns
      `rollbackMigrationsOnTestFailed` on. */
  lemma ParsingAsymmetry(raw: RawInputs)
    requires Get(raw, "skipTests") == "TRUE"
    requires Get(raw, "rollbackMigrationsOnTestFailed") == "TRUE"
    ensures !GetInputs(raw).skipTests
    ensures GetInputs(raw).rollbackMigrationsOnTestFailed
  {
    assert "" + "TRUE" + "" == "TRUE";
    assert "TRUE"[0] != "true"[0];
    ParsingRulesDisagree("", "TRUE", "");
  }

  // ---------------------------------------------------------------------
  // Which raw inputs each field reads

  datatype Value = Text(text: string) | Flag(flag: bool)

  function FieldOf(r: ActionInputs, f: Field): Value {
    match f
    case TestFolder => Text(r.testFolder)
    case MigrationsFolder => Text(r.migrationsFolder)
    case EnvName => Text(r.envName)
    case Home => Text(r.home)
    case SkipMigrations => Flag(r.skipMigrations)
    case SkipTests => Flag(r.skipTests)
    case DotnetRoot => Text(r.dotnetRoot)
    case UseGlobalDotnetEf => Flag(r.useGlobalDotnetEf)
    case GetExecOutput => Flag(r.getExecOutput)
    case TestOutputFolder => Text(r.testOutputFolder)
    case TestFormat => Text(r.testFormat)
    case RollbackMigrationsOnTestFailed => Flag(r.rollbackMigrationsOnTestFailed)
  }

  /** The raw inputs a field is computed from: its own, and for
      `testOutputFolder` also `testFolder`. */
  function InputsRead(f: Field): (names: set<string>)
    ensures InputName(f) in names
    ensures f != TestOutputFolder ==> names == {InputName(f)}
  {
    if f == TestOutputFolder then {InputName(TestOutputFolder), InputName(TestFolder)}
    else {InputName(f)}
  }

  /** Two raw maps that agree on the inputs a field reads give that field
      the same value. */
  lemma FieldReadsOnlyItsInputs(raw1: RawInputs, raw2: RawInputs, f: Field)
    requires forall n :: n in InputsRead(f) ==> Get(raw1, n) == Get(raw2, n)
    ensures FieldOf(GetInputs(raw1), f) == FieldOf(GetInputs(raw2), f)
  {
    assert Get(raw1, InputName(f)) == Get(raw2, InputName(f));
    if f == TestOutputFolder {
      assert Get(raw1, InputName(TestFolder)) == Get(raw2, InputName(TestFolder));
    }
  }

  /** Every field really reads its own input: the raw values "true" and "x"
      for that input alone give the field different resolved values. */
  lemma FieldReadsItsOwnInput(f: Field)
    ensures FieldOf(GetInputs(map[InputName(f) := "true"]), f) != FieldOf(GetInputs(map[InputName(f) := "x"]), f)
  {
    if f == RollbackMigrationsOnTestFailed {
      RollbackFlagReadsItsOwnInput();
    } else if f.SkipMigrations? || f.SkipTests? || f.UseGlobalDotnetEf? || f.GetExecOutput? {
      StrictFlagReadsItsOwnInput(f);
    } else {
      TextFieldReadsItsOwnInput(f);
    }
  }

  lemma RollbackFlagReadsItsOwnInput()
    ensures FieldOf(GetInputs(map[InputName(RollbackMigrationsOnTestFailed) := "true"]), RollbackMigrationsOnTestFailed) == Flag(true)
    ensures FieldOf(GetInputs(map[InputName(RollbackMigrationsOnTestFailed) := "x"]), RollbackMigrationsOnTestFailed) == Flag(false)
  {
    var n := InputName(RollbackMigrationsOnTestFailed);
    assert Get(map[n := "true"], n) == "true" && Get(map[n := "x"], n) == "x";
    RollbackFlagAccepts("true");
    RollbackFlagAccepts("x");
  }

  lemma StrictFlagReadsItsOwnInput(f: Field)
    requires f.SkipMigrations? || f.SkipTests? || f.UseGlobalDotnetEf? || f.GetExecOutput?
    ensures FieldOf(GetInputs(map[InputName(f) := "true"]), f) == Flag(true)
    ensures FieldOf(GetInputs(map[InputName(f) := "x"]), f) == Flag(false)
  {
  }

  lemma TextFieldReadsItsOwnInput(f: Field)
    requires FieldOf(GetInputs(map[]), f).Text?
    ensures FieldOf(GetInputs(map[InputName(f) := "true"]), f) == Text("true")
    ensures FieldOf(GetInputs(map[InputName(f) := "x"]), f) == Text("x")
  {
  }

  /** The dependency of `testOutputFolder` on `testFolder` is real: when
      `testOutputFolder` is absent, giving `testFolder` a non-empty value
      other than the resolved one (the default, if `testFolder` was absent)
      changes the resolved `testOutputFolder` with it. */
  lemma TestOutputFolderFollowsTestFolder(raw: RawInputs, folder: string)
    requires Get(raw, "testOutputFolder") == ""
    requires folder != "" && folder != GetInputs(raw).testFolder
    ensures GetInputs(raw["testFolder" := folder]).testOutputFolder == folder + "/TestResults"
    ensures GetInputs(raw).testOutputFolder != GetInputs(raw["testFolder" := folder]).testOutputFolder
  {
    var raw2 := raw["testFolder" := folder];
    assert Get(raw2, "testOutputFolder") == "";
    var old1 := GetInputs(raw).testFolder;
    var o1, o2 := old1 + TestResultsSuffix, folder + TestResultsSuffix;
    if |old1| == |folder| {
      assert o1[..|old1|] == old1 && o2[..|folder|] == folder;
    } else {
      assert |o1| != |o2|;
    }
  }

  /** With no inputs at all, every field takes its default. */
  lemma NoInputs()
    ensures GetInputs(map[]) == ActionInputs(
      testFolder := "./sample-project/sample-project.Tests",
      migrationsFolder := "./sample-project/sample-project.MVC",
      envName := "Test",
      home := "/home/node",
      skipMigrations := false,
      skipTests := false,
      dotnetRoot := "/usr/bin/dotnet",
      useGlobalDotnetEf := false,
      getExecOutput := false,
      testOutputFolder := "./sample-project/sample-project.Tests/TestResults",
      testFormat := "html",
      rollbackMigrationsOnTestFailed := true)
  {
    RollbackOnByDefault(map[]);
    TestOutputFolderDerived(map[]);
  }
}
