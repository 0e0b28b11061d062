# rit command gatekeeper, modelled in Dafny

This project models the gatekeeper that the `rit` command-line tool (ritchie-cli)
runs around every command, as written in `pkg/cmd/root.go`:

- the **pre-run hook** (`PreRunFunc`) makes sure the rit home directory exists,
  lets whitelisted and shell-completion command paths through, and otherwise
  either lets the command run or prints `MsgInit` and exits with status 0 when
  `{home}/repos/commons` is missing;
- the **post-run hook** (`PostRunFunc`) fetches the stable version and prints
  the version notice for the bare `rit` path only, and, when rit is not
  initialized, asks the tutorial store and prints the `[TUTORIAL]` banner when
  the status is the "on" status, or fails with the store's error;
- the `--version` text (`versionFlag`), which shows the latest version exactly
  when the fetch succeeded and answered something other than the running
  version.

Layout:

- `wrappers.dfy` (`Wrappers`): `Option` and `Result` for Go's error returns.
- `text.dfy` (`Text`): `strings.Contains` and `fmt.Sprintf` for the `%s` verb,
  each with a reference definition and the lemma tying the two together.
- `whitelists.dfy` (`Whitelists`): `whitelist`, `upgradeWhitelist`, `isWhitelist`,
  `isCompleteCmd`.
- `environment.dfy` (`Environment`): the collaborators (directory service,
  tutorial store, stable-version endpoint, terminal). A `World` value holds what
  exists, what each collaborator answers, the terminal output and the trace of
  requests made, in order. The class `Env` holds the same state and its methods
  are proved equal to the step functions on `World`.
- `root.dfy` (`Root`): the hooks as functions `PreRun` and `PostRun` on `World`,
  and the class `RootCmd`, whose methods follow the Go code statement by
  statement and are proved to produce exactly what those functions produce.
- `version.dfy` (`Version`): `versionFlag`.
- `root_properties.dfy` (`RootProperties`): what the hooks promise.

Each collaborator request and each hook is written twice, on purpose. The
methods (`Env.Create` … `Env.Println`, `RootCmd.PreRunFunc` … `RootCmd.TutorialRit`)
are the model of the Go code. The functions on `World` (`CreateStep` … `PrintStep`,
`CheckInitialized`, `PreRun`, `NotifyNewVersion`, `ShowTutorial`, `PostRun`) are
their specifications. Each method's postcondition equates it with its function,
and the properties are proved about the functions.

The process exit in the pre-run hook is the outcome `ExitInit`; the command
body and cobra's dispatch are outside the model.

## Model

| member | source | states |
|---|---|---|
| Text.Contains | pkg/cmd/root.go:129-131 | strings.Contains, as used by isCompleteCmd: the scan answers true exactly when the marker occurs at some index of the command path |
| Text.SprintfLiteral | pkg/cmd/root.go:141-144 | fmt.Sprintf copies text without a `%` unchanged and consumes no argument |
| Text.SprintfVerb | pkg/cmd/root.go:141-144 | fmt.Sprintf replaces a `%s` verb with the next argument |
| Text.SprintfVerbs | pkg/cmd/root.go:141-144 | fmt.Sprintf over a format of `%s` verbs and `%`-free text interleaves the arguments with that text |
| Whitelists.Member | pkg/cmd/root.go:125-127 | sliceutil.Contains: the scan answers true exactly when the string equals an entry of the list |
| Whitelists.IsWhitelist | pkg/cmd/root.go:125-127 | isWhitelist: true exactly when the whole command path is an entry of the given list |
| Whitelists.IsCompleteCmd | pkg/cmd/root.go:129-131 | isCompleteCmd: true exactly when "__complete" occurs somewhere in the command path |
| Whitelists.WhitelistIsExact | pkg/cmd/root.go:39-48 | a path is whitelisted exactly when it is one of the eight listed paths, built from "rit" |
| Whitelists.NoPrefixMatching | pkg/cmd/root.go:125-127 | "rit" and "rit init" are whitelisted, "rit init foo" is not: no prefix matching |
| Whitelists.UpgradeWhitelistIsRootOnly | pkg/cmd/root.go:50-52 | the upgrade whitelist admits the bare "rit" path and nothing else |
| Whitelists.CompletionAnywhere | pkg/cmd/root.go:129-131 | a path holding "__complete" anywhere is a completion query |
| Whitelists.WhitelistHasNoCompletion | pkg/cmd/root.go:86-88 | no whitelisted path is a completion query; the two exemptions are independent |
| Version.PlainText | pkg/cmd/root.go:24 | versionMsg renders as version, build date and Go version on their labelled lines |
| Version.NoticeText | pkg/cmd/root.go:25 | versionMsgWithLatestVersion renders with the notice on the line after the version |
| Version.LatestText | pkg/cmd/root.go:23 | latestVersionMsg renders as "Latest available version: " followed by the version |
| Version.VersionFlag | pkg/cmd/root.go:133-145 | the --version text embeds the coloured latest version exactly when the fetch succeeded and differs as a string from the running version, and is the plain build text otherwise, fetch error included |
| Root.TrimTrailingSlashes | pkg/cmd/root.go:164 | the home path loses exactly its trailing slashes before the marker is joined to it |
| Root.CommonsPath | pkg/cmd/root.go:164 | the marker path is "repos/commons" for an empty home and otherwise the home without trailing slashes followed by "/repos/commons"; it is never the home directory itself |
| Root.CheckInitialized | pkg/cmd/root.go:163-167 | ritchieIsInitialized: the answer is exactly whether {home}/repos/commons exists, and only the Exists request is added to the trace |
| Root.PreRun | pkg/cmd/root.go:80-97 | PreRunFunc's closure: the outcome as a decision table over creation error, exemption and marker; the requests are the home creation first and then the marker query only after a successful creation for a non-exempt path; the home exists afterwards unless creation failed; MsgInit is printed exactly on the early exit |
| Root.NotifyNewVersion | pkg/cmd/root.go:114-123 | verifyNewVersion: the stable-version fetch and the notice happen exactly when the path is "rit"; nothing else changes |
| Root.ShowTutorial | pkg/cmd/root.go:151-161 | tutorialRit: the three banner lines are printed exactly when the status is the "on" status; nothing else changes |
| Root.PostRun | pkg/cmd/root.go:99-112 | PostRunFunc's closure: it fails with the store's error exactly when the marker is missing and Find fails, and succeeds otherwise; the requests are the fetch only for "rit", then the marker query, then Find only when the marker is missing; the output is the notice only for "rit" followed by the banner only when the marker is missing and the status is "on"; no directory changes |
| Root.RootCmd.RitchieIsInitialized | pkg/cmd/root.go:163-167 | one Exists query for the marker, as CheckInitialized says |
| Root.RootCmd.PreRunFunc | pkg/cmd/root.go:80-97 | the hook's outcome and the world afterwards are those of PreRun |
| Root.RootCmd.PostRunFunc | pkg/cmd/root.go:99-112 | the hook's outcome and the world afterwards are those of PostRun |
| Root.RootCmd.VerifyNewVersion | pkg/cmd/root.go:114-123 | the world afterwards is that of NotifyNewVersion |
| Root.RootCmd.TutorialRit | pkg/cmd/root.go:151-161 | the world afterwards is that of ShowTutorial |
| Environment.Env.Create | pkg/cmd/root.go:82 | dir.Create records the request and makes the home exist unless creation fails |
| Environment.Env.Exists | pkg/cmd/root.go:166 | dir.Exists records the request and answers presence, changing nothing else |
| Environment.Env.Find | pkg/cmd/root.go:104 | rt.Find records the request and answers the store's status or error |
| Environment.Env.Fetch | pkg/cmd/root.go:116-121 | the stable-version GET records its URL and 1-second timeout and answers the endpoint's result |
| Environment.Env.Println | pkg/cmd/root.go:91 | printing appends one line to the terminal output |
| RootProperties.PreRunCreateFailure | pkg/cmd/root.go:82-84 | a failed creation ends the hook with that exact error, before any whitelist or marker check and with nothing printed |
| RootProperties.PreRunExemptProceeds | pkg/cmd/root.go:86-88 | whitelisted and completion paths proceed right after creation without an Exists query |
| RootProperties.PreRunGate | pkg/cmd/root.go:90-95 | for other paths, a missing marker prints MsgInit and exits with status 0; a present marker proceeds with nothing printed |
| RootProperties.ExemptNeverExits | pkg/cmd/root.go:86-88 | an exempt path never takes the early exit |
| RootProperties.CheckInitializedIdempotent | pkg/cmd/root.go:163-167 | asking twice gives the same answer |
| RootProperties.VersionNoticeOnlyForRoot | pkg/cmd/root.go:114-123 | within the post-run hook, a stable-version fetch happens if and only if the path is the bare "rit" (the fetch versionFlag makes at command construction is outside the hooks) |
| RootProperties.PostRunInitialized | pkg/cmd/root.go:103-110 | when initialized the hook succeeds and never asks the tutorial store |
| RootProperties.PostRunFindError | pkg/cmd/root.go:104-107 | when not initialized, the store's error is returned unchanged |
| RootProperties.PostRunTutorial | pkg/cmd/root.go:108-110 | otherwise the hook succeeds, prints the banner after the notice exactly when the status is the "on" status, and prints nothing else |
| RootProperties.FreshHomeScenario | pkg/cmd/root.go:80-97 | a fresh home and "rit formula": the home is created, MsgInit is printed, the hook exits with status 0 |
| RootProperties.InitScenario | pkg/cmd/root.go:86-88 | "rit init" proceeds whether or not the marker exists |

## Left out

- Cobra command construction, the `stdin` flag and `runHelp` (pkg/cmd/root.go:61-78, 147-149): framework wiring with no decisions; `RootCmd` is built directly from the home path and the collaborators.
- The HTTP client and the body of `version.VerifyNewVersion` and `StableVersion`: they live in a package that is not part of this model. The fetch is a request recorded with its URL and timeout whose answer is an input; the message `VerifyNewVersion` builds is the log line `VersionNotice(stable, current)`, which is printed (as `prompt.Warning`) every time the path is "rit", as the Go code does.
- `versionFlag`'s own fetch (pkg/cmd/root.go:68, 134-139) happens when the root command is built, on every invocation whatever the command path; it is the `latest` argument of `Version.VersionFlag` and is not recorded in the hooks' call trace, so the "fetch only for rit" properties speak of the post-run hook alone.
- `prompt.Yellow` is the `yellow` argument of `Version.VersionFlag`; `prompt.Info` and `prompt.Warning` are tags on the printed line; `runtime.Version()` is a field of `Build`. Terminal colouring itself is not modelled.
- The real `os.Exit(0)` (pkg/cmd/root.go:92) is the outcome `ExitInit`; flushing output and process exit codes are outside the model.
- The real filesystem and the tutorial persistence: the directory service and tutorial store are inputs of `World`. `dir.Create` is modelled as making the home directory exist; parent directories are not modelled.
- `tutorialStatusOn` is defined outside root.go; the model gives it the value "on", and no property depends on that value.
- Root.CommonsPath: models `path.Join` only for trailing slashes of the home path; the rest of `path.Clean` (".", "..", repeated inner slashes) is not modelled.
- Text.Sprintf: models the `%s` and `%%` verbs only, and prints `%!s(MISSING)` for a missing argument as Go does; other verbs and the `%!(EXTRA …)` suffix for surplus arguments are not modelled, since no format here uses them.
- The static identity-provider JSON configuration of the repository: inert data, no logic.
