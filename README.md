# apple-code-sign-action: a Dafny model of its entry point

The action signs, notarizes and staples Apple artifacts with the `rcodesign` tool. Its logic is
in `src/main.js`, and this project models both of its functions.

- **`getRcodesign`** (module `ToolLocator`). It maps the platform and architecture to the
  release-archive URL, the archive-internal directory and the extraction strategy (tar or zip).
  It returns the path of the executable under the extraction directory. For an unsupported
  pair it throws an error naming the operating system or architecture. `Locate` states the
  supported targets as an explicit table. The method `GetRcodesign` follows the source's
  nested switch and `url +=` steps, and is proved equal to `Locate`.
- **`run`** (modules `Arguments` and `Orchestrator`). It builds the `sign`, `notary-submit`
  and `staple` argument lists and runs them in order. The artifact path (`signedPath`) and
  the inline-staple flag (`stapled`) are passed from stage to stage. Before notarizing, it
  checks that an API key file was given, and finally it reports the output path.
  - `SignArgs`, `NotarizeArgs` and `StapleArgs` specify each list as flag/value pairs laid
    out flat. The builder methods push onto the list in loops, as the source does, and are
    proved equal to those functions.
  - `Plan`, `Ending`, `Execute` and `Workflow` give the reference semantics of a whole run.
    They say which invocations are made, and that execution stops at the first failing one.
  - The method `Run` keeps the source's mutable `signedPath` and `stapled`, and is proved
    equal to `Workflow`.

The environment is made explicit:

- The results of `os.platform()` and `os.arch()` are parameters.
- The directory the archive is extracted into is an opaque parameter, `destDir`.
- Each `exec.exec(rcodesign, args)` becomes a recorded `Invocation`. Whether the i-th
  invocation exits successfully is decided by an oracle `exitOk(i)`.
- `core.setOutput` and `core.setFailed` become the `Outcome` of the run. An error the action
  throws carries its message. A failing invocation carries its index in the trace.

The model follows the code at `src/main.js:62`. That line compares the function `os.platform`
itself, not its result, with `'win32'`. The comparison is always false, so `.exe` is never
appended to the executable path, on Windows included. `StrictEquals` on a small `JsValue`
datatype models this literally, and `ExecutablePath` states the consequence.

The Linux branch at `src/main.js:23` matches the architecture name `aarch64`. Node reports
64-bit ARM as `arm64`, a name the branch rejects. The model follows the text:
`LinuxArm64Rejected` states that `arm64` gets the unsupported-architecture error.

An unset string input is `""` and an unset list input is `[]`, matching the source's
truthiness tests and `length > 0` test.

## Model

| member | source | states |
|---|---|---|
| ToolLocator.GetRcodesign | src/main.js:6-66 | The step-by-step URL, directory, extension test and executable path equal the target table `Locate`: unsupported pairs give the same three error messages, supported pairs give the same tool |
| ToolLocator.LocateSucceedsIff | src/main.js:15-47 | Location succeeds exactly for (darwin, any), (linux, aarch64), (linux, x64) and (win32, x64). Otherwise the error is "unsupported Linux architecture: <arch>", "unsupported Windows architecture: <arch>" or "unsupported operating system: <platform>" |
| ToolLocator.UrlAndDirectoryShareSuffix | src/main.js:10-47 | On success the directory is `apple-codesign-<version>-<suffix>` and the URL is the release prefix, the version, that directory name and `.tar.gz`, or `.zip` on Windows. The suffix is fixed per target, and on macOS the architecture is ignored |
| ToolLocator.LinuxArm64Rejected | src/main.js:21-33 | On Linux `aarch64` resolves, while `arm64` is rejected with "unsupported Linux architecture: arm64" |
| ToolLocator.ExtensionDecidesArchive | src/main.js:55-59 | A URL ends in `.tar.gz` exactly when it was built with the tar extension |
| ToolLocator.ArchiveKind | src/main.js:55-59 | The tar strategy is chosen exactly when the URL ends in `.tar.gz`; zip is chosen exactly on win32 |
| ToolLocator.ExecutablePath | src/main.js:61-64 | The executable is `<destDir>/<directory>/rcodesign`. It ends in `/rcodesign` and never in `.exe`, whatever the platform |
| Arguments.PairingFlatten | src/main.js:104-106 | Reading the pushed list back two elements at a time gives exactly the pushed flag/value pairs |
| Arguments.ValuesOfRepeated | src/main.js:104-106 | A list option's pairs read back as the list itself under its own flag, and as nothing under any other flag |
| Arguments.ValuesOfOptional | src/main.js:108-110 | A scalar option's pair reads back as its value when set, as nothing when unset, and as nothing under any other flag |
| Arguments.JoinAppend | src/main.js:125 | Joining a list split in two is concatenating the joined halves |
| Arguments.JoinLength | src/main.js:125 | The joined key is exactly as long as all its lines together: `join('')` adds no separator |
| Arguments.JoinKeepsLines | src/main.js:125 | Every line occurs in the joined key verbatim, starting right after the characters of the lines before it |
| Arguments.SignListOptionsRecovered | src/main.js:104-123 | In the sign pairs, `--config-file`, `--pem-file` and `--certificate-der-file` carry exactly the configured lists, in input order |
| Arguments.SignScalarOptionsRecovered | src/main.js:108-132 | In the sign pairs, `--profile`, `--p12-file`, `--p12-password`, `--remote-public-key-pem-file` and `--remote-shared-secret` each occur once with the input's value when set, and not at all when unset |
| Arguments.RemotePublicKeyOnce | src/main.js:124-126 | `--remote-public-key` occurs at most once. It is present exactly when there is a key line, and its value is all the lines joined |
| Arguments.SignValues | src/main.js:104-132 | Under any flag, the sign pairs hold the contribution of each of the nine option segments, in the source's order |
| Arguments.SignArgsLayout | src/main.js:102-143 | The sign list is `sign`, then the pairs (read back exactly the sign pairs), then `sign_args` verbatim, then the input path, and last the output path when it is set |
| Arguments.StageArgsEnds | src/main.js:157-197 | Each stage's list starts with its stage name. The notary-submit and staple lists end with the artifact path, and notary-submit has the mode flag right before it |
| Arguments.NotarizeArgsLayout | src/main.js:157-179 | The notary-submit list is `notary-submit`, the config/credential pairs, then `--staple` if stapling was asked for and `--wait` otherwise, and last the artifact path |
| Arguments.NotarizeOptionsRecovered | src/main.js:157-171 | The notary-submit pairs carry the config files in order and each credential once when set. No pair uses `--staple` or `--wait` as a flag |
| Arguments.NotarizeValues | src/main.js:157-171 | Under any flag, the notary-submit pairs hold the contribution of each of the four segments |
| Arguments.FlagHasValue | src/main.js:104-171 | The value of every pushed pair is among the values read back under its flag |
| Arguments.NoModeFlagInPairs | src/main.js:157-171 | When no value is spelled `--staple` or `--wait`, neither string occurs among the notary-submit pairs |
| Arguments.NotarizeStapleXorWait | src/main.js:173-179 | The notary-submit list holds `--staple` once and `--wait` never when stapling, and the reverse otherwise |
| Arguments.StapleArgsLayout | src/main.js:189-195 | The staple list is `staple`, then pairs that read back as exactly one `--config-file` pair per config file in order, and last the artifact path |
| Arguments.PushRepeated | src/main.js:104-106 | The push loop over a list option appends exactly that option's flattened pairs to the list |
| Arguments.PushOptional | src/main.js:108-110 | The guarded push appends the flag and value exactly when the value is set |
| Arguments.BuildSignFlags | src/main.js:102-132 | The pushes of the sign stage produce `sign` followed by the flattened sign pairs |
| Arguments.BuildSignArgs | src/main.js:102-143 | The built sign list is the specified `SignArgs` |
| Arguments.BuildNotarizeArgs | src/main.js:157-179 | The built notary-submit list is the specified `NotarizeArgs` for the given artifact path |
| Arguments.BuildStapleArgs | src/main.js:189-195 | The built staple list is the specified `StapleArgs` for the given artifact path |
| Orchestrator.Exec | src/main.js:145-197 | An exec records the next planned invocation. On failure the run ends with that invocation's failure; on success execution continues with the next one |
| Orchestrator.Run | src/main.js:69-204 | The run, with its mutable `signedPath` and `stapled`, produces exactly the trace and outcome of the reference `Workflow` |
| Orchestrator.ExecuteStopsAtFirstFailure | src/main.js:201-203 | Executing a plan records a prefix of it. Every recorded invocation but the last succeeded. The planned ending is reached exactly when all remaining invocations succeed; otherwise the outcome is the last recorded invocation's failure |
| Orchestrator.UnsupportedPlatformFails | src/main.js:97 | On an unsupported platform the run fails with the locator's message and makes no invocation |
| Orchestrator.MissingApiKeyStopsBeforeNotarizing | src/main.js:150-155 | On a supported platform, notarizing without an API key file makes at most the sign invocation. It fails with that invocation's failure, or else with "App Store Connect API Key not defined; cannot notarize" |
| Orchestrator.PlanStages | src/main.js:101-198 | The planned stages are, in order: sign if enabled; notary-submit if enabled with a key file; staple only if enabled without notarization |
| Orchestrator.PlannedInvocations | src/main.js:150-197 | Every planned invocation runs the located tool. Notary-submit and staple end with the artifact path. Notary-submit carries `--staple`/`--wait` per the staple option and needs the key file. A standalone staple is planned only with staple on and notarize off |
| Orchestrator.StagesOfSuccessfulRun | src/main.js:99-200 | On a supported platform, with an API key file whenever notarizing, and when every invocation succeeds, the stages run are exactly the enabled ones, with staple folded into notary-submit, and the output reported is the artifact path |
| Orchestrator.InvocationsOfAnyRun | src/main.js:145-197 | On a supported platform, every invocation of any run, failing or not, is one of the planned invocations. It runs the located tool, has the artifact path last for notary-submit and staple, and the mode flag for notary-submit |
| Orchestrator.ReportedOutput | src/main.js:99-200 | An output is reported only on a supported platform, with no error thrown, after the whole plan ran and every invocation succeeded (no partial-success output). It is the output path when signing wrote one, and the input path otherwise |
| Orchestrator.FailureAborts | src/main.js:201-203 | A failing invocation is the last one recorded, and every invocation before it succeeded |
| Scenarios.SignToOutput | src/main.js:101-145 | Signing input.bin to out.bin with nothing else set makes the single invocation `sign input.bin out.bin` and reports out.bin |
| Scenarios.NotarizeAndStaple | src/main.js:150-186 | Notarizing with staple and a key file, without signing, makes only `notary-submit --api-key-file key.json --staple a.bin`; no separate staple follows |
| Scenarios.StapleOnly | src/main.js:188-198 | Stapling alone makes the single invocation `staple a.bin` and reports a.bin |

## Left out

- Downloading and extraction (`tool_cache.downloadTool`, `extractTar`, `extractZip`) are not modelled. Their result is the opaque `destDir`, and a failed download or extraction is not modelled.
- The `Downloading rcodesign from ...` log line (`core.info`) is not modelled.
- Input parsing (`core.getInput`, `getBooleanInput`, `getMultilineInput`) is not modelled: the inputs arrive already typed in `Options`. The errors those helpers throw are out of scope because that code is not part of this model. These are a missing required `input_path` and a malformed boolean.
- `exec.exec` is an external process. It becomes a recorded invocation plus the `exitOk` oracle. Its output, its exit code and the exact text of its rejection are not modelled; a failure is identified by its invocation index.
- `os.platform()` and `os.arch()` are parameters. The property lookup `os.platform` at `src/main.js:62` is the function value compared with a string.
- Asynchrony (`async`/`await`) is not modelled: each await is sequential here.
- Arguments.NotarizeStapleXorWait: holds only when no config file, credential or artifact path is itself spelled `--staple` or `--wait`. Without that condition the multiset count cannot be stated.
- The end-to-end scenarios in `Scenarios` use macOS with any version and extraction directory. They state the exact argument lists but not a literal release URL.
