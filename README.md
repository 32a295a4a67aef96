# dotnet-migrate-and-test: input resolution and the rollback command

A Dafny model of two pieces of decision logic in a GitHub Action. The action
applies EF Core migrations, runs the test suite, and rolls the migrations back
when the tests fail.

- **Input resolver** (`getInputs`, `src/inputs.ts`). `Inputs.GetInputs` is a
  total, pure function. It maps the raw action inputs, a map from input name
  to string, to the `ActionInputs` record. An absent input reads as `""`.
  Four flags (`getExecOutput`, `skipMigrations`, `useGlobalDotnetEf`,
  `skipTests`) are on only for the exact string `"true"`. Six string inputs
  fall back to fixed defaults when empty. `testOutputFolder` falls back to
  the resolved `testFolder` followed by `/TestResults`.
  `rollbackMigrationsOnTestFailed` defaults to `"true"` and is compared after
  trimming and lower-casing. The model keeps this asymmetry and proves it:
  `"TRUE"` leaves `skipTests` off but turns the rollback flag on.
- **Rollback command builder** (`rollbackMigrations`, `src/rollback.ts`).
  `Rollback.RollbackMigrations` returns the invocation the source hands to
  `@actions/exec`. The invocation holds the executable (`dotnet-ef`, or the
  configured `dotnetRoot`), the argument list (`database update <target>`,
  behind `tool run dotnet-ef` for a local tool), the environment
  (`DOTNET_ROOT`, `HOME`, `ASPNETCORE_ENVIRONMENT`), the working directory
  (`migrationsFolder`) and whether output is captured or streamed.
  `Rollback.DecodeRollbackArgs` reads an argument list back. The round-trip
  lemma shows the list determines both the tool mode and the target.

`AsciiText` models the two JavaScript string operations the rollback flag
uses, `trim()` and `toLowerCase()`, on ASCII.

Files: `ascii_text.dfy` (module `AsciiText`), `inputs.dfy` (module `Inputs`),
`rollback.dfy` (module `Rollback`).

## Model

| member | source | states |
|---|---|---|
| `AsciiText.LeadingSpaces` | src/inputs.ts:99 | the count is the length of the longest all-white-space prefix: that prefix is all white space and the next character, if any, is not |
| `AsciiText.TrailingSpaces` | src/inputs.ts:99 | the count is the length of the longest all-white-space suffix: that suffix is all white space and the character before it, if any, is not |
| `AsciiText.Trim` | src/inputs.ts:99 | `trim()` returns a slice of its input that only white space surrounds, and neither end of the result is white space |
| `AsciiText.LeadingSpacesOfPadded` | src/inputs.ts:99 | white space put in front of a string that does not start with white space is exactly the leading white space counted |
| `AsciiText.TrailingSpacesOfPadded` | src/inputs.ts:99 | white space put behind a string that does not end with white space is exactly the trailing white space counted |
| `AsciiText.TrimOfPadded` | src/inputs.ts:99 | trimming any white-space padding of a string whose ends are not white space gives back exactly that string |
| `AsciiText.ToLower` | src/inputs.ts:99 | `toLowerCase()` keeps the length and lower-cases each character on its own |
| `AsciiText.LowerIsTrue` | src/inputs.ts:99 | a string lower-cases to "true" iff it spells "true" in some mix of letter cases |
| `Inputs.GetInputs` | src/inputs.ts:75-145 | for all raw inputs, no string field of the resolved record is empty |
| `Inputs.StrictFlagsExact` | src/inputs.ts:77-81 | `getExecOutput`, `skipMigrations`, `useGlobalDotnetEf` and `skipTests` are each true iff their own raw input is exactly "true" |
| `Inputs.StrictFlagIsCaseSensitive` | src/inputs.ts:77-81 | every re-cased "true" other than "true" itself leaves a strict flag off |
| `Inputs.StrictFlagRejectsCommonSpellings` | src/inputs.ts:77-81 | "True", "TRUE" and the absent value leave a strict flag off |
| `Inputs.StringDefaults` | src/inputs.ts:84-91 | a non-empty raw `dotnetRoot`, `envName`, `home`, `migrationsFolder`, `testFolder` or `testFormat` is kept unchanged; an empty one gives `/usr/bin/dotnet`, `Test`, `/home/node`, `./sample-project/sample-project.MVC`, `./sample-project/sample-project.Tests` or `html` |
| `Inputs.TestOutputFolderDerived` | src/inputs.ts:89-93 | `testOutputFolder` is the raw value when non-empty and otherwise the resolved `testFolder` plus `/TestResults`, which is `./sample-project/sample-project.Tests/TestResults` when both inputs are absent |
| `Inputs.TestOutputFolderFollowsTestFolder` | src/inputs.ts:89-93 | when `testOutputFolder` is absent, setting `testFolder` to any non-empty value other than the resolved one (the default when `testFolder` was absent) changes the resolved `testOutputFolder` to the new folder plus `/TestResults` |
| `Inputs.TrimLowerTrueIsPadded` | src/inputs.ts:98-99 | if trimming and lower-casing a string gives "true", the string is a re-cased "true" with only white space around it |
| `Inputs.PaddedTrimsToTrue` | src/inputs.ts:98-99 | every re-cased "true" with only white space around it trims and lower-cases to "true" |
| `Inputs.DefaultRollbackIsOn` | src/inputs.ts:96-99 | the default "true" parses as on |
| `Inputs.RollbackFlagAccepts` | src/inputs.ts:96-99 | the rollback flag parser returns true iff the raw value is empty or is "true" in any letter case surrounded only by white space |
| `Inputs.RollbackOnByDefault` | src/inputs.ts:96-99 | an absent or empty `rollbackMigrationsOnTestFailed` input resolves to true |
| `Inputs.RollbackFlagResolved` | src/inputs.ts:96-99 | the resolved `rollbackMigrationsOnTestFailed` is true iff its raw input is empty or a white-space-padded, re-cased "true" |
| `Inputs.BlankRollbackInputIsOff` | src/inputs.ts:96-99 | a non-empty raw rollback input made only of white space bypasses the default and resolves to false |
| `Inputs.ParsingRulesDisagree` | src/inputs.ts:77-99 | every padded or re-cased "true" other than "true" itself leaves a strict flag off and turns the rollback flag on |
| `Inputs.ParsingAsymmetry` | src/inputs.ts:81-99 | with the raw value "TRUE" for both inputs, `skipTests` is false and `rollbackMigrationsOnTestFailed` is true |
| `Inputs.FieldReadsItsOwnInput` | src/inputs.ts:77-99 | every field reads its own input: two different raw values for that input alone give the field different resolved values |
| `Inputs.StrictFlagReadsItsOwnInput` | src/inputs.ts:77-81 | each strict flag, with only its own input given, is on for "true" and off for "x" |
| `Inputs.TextFieldReadsItsOwnInput` | src/inputs.ts:84-93 | each string field, with only its own input given, resolves to exactly that value ("true" or "x") |
| `Inputs.RollbackFlagReadsItsOwnInput` | src/inputs.ts:96-99 | with only its own input given, the rollback flag is on for "true" and off for "x" |
| `Inputs.FieldReadsOnlyItsInputs` | src/inputs.ts:77-99 | two raw maps that agree on the inputs a field reads give that field the same resolved value |
| `Inputs.NoInputs` | src/inputs.ts:77-99 | with no inputs at all, every string field takes its default, the four strict flags are false and the rollback flag is true |
| `Rollback.RollbackMigrations` | src/rollback.ts:37-76 | the working directory is `migrationsFolder`; the environment sets exactly `DOTNET_ROOT` to `dotnetRoot`, `ASPNETCORE_ENVIRONMENT` to `envName`, and `HOME`; output is captured iff `getExecOutput` |
| `Rollback.ArgsRoundTrip` | src/rollback.ts:54-56 | decoding the argument list gives back the tool mode and the target migration it was built from |
| `Rollback.RollbackArgsInjective` | src/rollback.ts:54-56 | two argument lists are equal only if their tool modes and their targets are equal |
| `Rollback.ArgumentShape` | src/rollback.ts:54-56 | the global arguments are exactly `database update <target>`; the local ones are `tool run dotnet-ef` followed by the global ones, three longer |
| `Rollback.ArgumentsEndWithUpdate` | src/rollback.ts:54-56 | in both modes the last three arguments are `database update <target>`, so the last argument is the target migration |
| `Rollback.ExecutableChoice` | src/rollback.ts:63-76 | the executable is `dotnet-ef` when `useGlobalDotnetEf` holds and `dotnetRoot` otherwise, and the arguments decode to that same mode and the target |
| `Rollback.HomeFallback` | src/rollback.ts:48-52 | `HOME` is the process's own HOME when it is set and non-empty, and the `home` parameter when it is unset or empty |
| `Rollback.OutputModeOnlyChoosesCapture` | src/rollback.ts:58-76 | the two `getExecOutput` branches build the same executable, arguments, environment and working directory; only capture vs. streaming differs |
| `Rollback.ResolvedRollbackIsWellFormed` | src/rollback.ts:48-61 | fed from any resolved `ActionInputs`, the invocation has a non-empty executable and working directory, and every environment variable it sets is non-empty |

## Left out

- Reading the inputs from the runner (`core.getInput`): the raw inputs are a given map, with absent read as `""`. `core.getInput` trims its result itself in code that is not part of this model. So a white-space-only raw value, which `Inputs.BlankRollbackInputIsOff` turns the flag off for, may never reach `getInputs` in practice.
- `AsciiText.Trim` and `AsciiText.ToLower`: JavaScript's `trim()` and `toLowerCase()` are modelled on ASCII only. `Trim` removes tab, line feed, vertical tab, form feed, carriage return and space, not the other Unicode white space. `ToLower` maps only `A`..`Z`.
- All `core.info` logging (src/inputs.ts:101-129, src/rollback.ts:46, 69, 78): it has no effect on control flow.
- Running the command (`exec.exec`, `exec.getExecOutput`), waiting for it, and its success or failure (src/rollback.ts:63-76): this is external process I/O. The model returns the invocation instead, with `OutputMode` recording which of the two calls is made.
- Reading `process.env.HOME` (src/rollback.ts:50): it is the parameter `processHome`, with `None` for an unset variable.
- `Rollback.RollbackMigrations`: records the `env` option exactly as built. Whether the child process also inherits the parent's environment is decided inside `@actions/exec`, which is not part of this model.
- The orchestrator, the step that captures the current migration and the apply step are not part of this model. Their files are not among the modelled sources. `Rollback.ResolvedRollbackIsWellFormed` only says what the invocation is when its arguments come from a resolved record; it does not claim that any caller passes them.
- The commented-out usage example (src/inputs.ts:147-161).
