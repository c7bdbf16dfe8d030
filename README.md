# hugoreleaser release client and "all" pipeline, in Dafny

This project models two parts of hugoreleaser, a tool that builds, archives
and publishes a release to GitHub.

- **The release client** (`internal/releases/github.go`, module `Releases` in
  `github.dfy`):
  - the status classifier that decides whether a failed upload is worth retrying;
  - the factory that picks a client from the release type and the
    `GITHUB_TOKEN` environment variable;
  - the live GitHub client's release creation and asset upload;
  - the fake client that the test token `faketoken` selects;
  - one attempt of the retried asset upload, the closure inside
    `UploadAssetsFileWithRetries`.
- **The "all" command** (`cmd/allcmd/allcmd.go`, module `AllCmd` in
  `allcmd.dfy`). It initialises the build, archive and release handlers in
  that order and stops at the first error. Only then does it execute them,
  in the same order, again stopping at the first error.

`common.dfy` (module `Common`) holds the shared types: optional values,
results, the core's errors and Go's `int64`.

Everything outside the core becomes an input. The environment is a map.
`os.ReadFile` and `openFile` are given as outcomes. The answers of the
GitHub API are response values. `rand.Int63` is a drawn number. A pipeline
handler is represented by its scripted outcomes: the error of its `Init`,
and the error of its `Exec` as a function of the context and the arguments.
The calls the pipeline makes, and what happens to the file of an upload
attempt, are recorded as ghost traces of events.

The live client's operations are functions of these inputs. The fake client
is a class whose one field, `releaseID`, is overwritten by `Release` and only
read by `UploadAssetsFile`. The pipeline's two loops are a method with loop
invariants. That method is proved equal to `Run`, a loop-free definition
built on "the first failure". The pipeline's ordering and fail-fast
properties are lemmas about `Run`.

## Model

| member | source | states |
|---|---|---|
| `Releases.IsTemporaryHttpStatus` | internal/releases/github.go:155-164 | a status is not temporary exactly when it is 400 Bad Request or 422 Unprocessable Entity; every other integer, success codes included, is temporary |
| `Releases.SelectClient` | internal/releases/github.go:34-59 | a type other than GitHub is the unsupported-type error; for GitHub a missing or empty token is the missing-token error naming GITHUB_TOKEN; exactly the token `faketoken` selects the fake client; any other non-empty token selects the live client carrying that token |
| `Releases.TypeCheckedBeforeToken` | internal/releases/github.go:35-38 | for an unsupported release type the result is the same error whatever the environment holds: the type is checked before the token is read |
| `Releases.NewClient` | internal/releases/github.go:34-59 | succeeds exactly when the selection succeeds and returns its error otherwise; the fake client it returns is newly allocated with `releaseID` 0; the live client carries the token |
| `Releases.OptionalString` | internal/releases/github.go:88-93 | an empty string becomes an absent field and any other string is kept, so reading the field back with "" as default gives the string again |
| `Releases.NewRepositoryRelease` | internal/releases/github.go:105-113 | tag, target commitish, name and body are absent exactly when empty and otherwise carry the input; draft, prerelease and generate-release-notes are always present with the settings' values |
| `Releases.RequestDeterminesInputs` | internal/releases/github.go:105-113 | two equal requests come from the same tag, commitish, name, body and flags: the request loses none of its inputs |
| `Releases.GitHubClient.Release` | internal/releases/github.go:87-125 | with a notes file set, a read failure returns (0, that error) before any API call; otherwise the request sent has the settings' owner and repository and a body that is empty without a notes file and the file's text with one; the result is (id, nil) exactly when the API call succeeded with 201 Created; an API error is returned unchanged; any other status is an unexpected-status error; every error comes with id 0 |
| `Releases.ReleaseErrorsAreFatal` | internal/releases/github.go:115-124 | release creation never produces a TemporaryError of its own, so a failed release is never classified as retryable |
| `Releases.GitHubClient.UploadAssetsFile` | internal/releases/github.go:139-147 | no API error gives nil; an API error with a response whose status is 400 or 422 is returned unwrapped; any other API error, including one without a response, is wrapped in a TemporaryError |
| `Releases.LiveUploadRetryableIff` | internal/releases/github.go:139-164 | the live upload yields a TemporaryError exactly when the API call failed and the response is missing or its status is neither 400 nor 422 |
| `Releases.LiveUploadKeepsOriginalError` | internal/releases/github.go:139-153 | the live upload fails exactly when the API call failed, and its error is then the API's error, either as it is or inside a TemporaryError |
| `Releases.IsTemporary` | internal/releases/github.go:61-70 | an upload's error counts as temporary exactly when it is the TemporaryError variant, whatever it wraps; nil is not temporary |
| `Releases.IsTemporaryAsWritten` | internal/releases/github.go:70 | `errors.Is(err, TemporaryError{})` as Go evaluates it: true exactly for a TemporaryError whose inner error is nil, the value `TemporaryError{}` |
| `Releases.AsWrittenNeverRetryable` | internal/releases/github.go:70 | under Go's value comparison against `TemporaryError{}`, no error that an upload returns, from the live client or the fake one, is ever classified as temporary |
| `Releases.AsWrittenMissesTransientFailure` | internal/releases/github.go:70 | for a failed upload answered with 503, the intended classification says temporary and the written one does not |
| `Releases.FakeClient.constructor` | internal/releases/github.go:166-169 | a new fake client holds the release id 0 |
| `Releases.FakeClient.Release` | internal/releases/github.go:171-176 | always succeeds, stores the drawn id in `releaseID`, replacing the earlier one, and returns it |
| `Releases.FakeClient.UploadAssetsFile` | internal/releases/github.go:178-186 | nil exactly when the id equals the stored `releaseID` and a file is given; an id mismatch is reported before a missing file; the stored id is only read |
| `Releases.DryRun` | internal/releases/github.go:171-186 | after a fake release, an upload under another id fails with a mismatch, one under the release's id succeeds with a file and fails without one, and a second release makes the first id stale |
| `Releases.UploadAssetsFile` | internal/releases/github.go:78-81 | the Client interface's upload, dispatched to the implementation at hand: the live client's classification of the API's answer, or the fake client's id and file checks; the fake client never returns a TemporaryError; the live client must be given a file |
| `Releases.UploadAttempt` | internal/releases/github.go:62-75 | if opening the file fails, that error is returned as not retryable and nothing is uploaded; otherwise the file is opened, uploaded and closed, in that order, and the upload's error is returned; a nil file from openFile is passed on to the upload as it is, so the fake client reports it when the id matches, and nothing is opened or closed; the attempt is retryable exactly when that error is a TemporaryError, so success is (nil, false); every file opened is closed, and the upload happens only while its file is open |
| `AllCmd.FirstFailure` | cmd/allcmd/allcmd.go:67-77 | the position returned is the first failing outcome, or the length when none fails: every outcome before it succeeded |
| `AllCmd.RunPhases` | cmd/allcmd/allcmd.go:61-79 | the error and the calls made by the two loops are those of `Run`: the first Init error stops everything, otherwise the first Exec error stops the executions, otherwise nil after all Inits and then all Execs |
| `AllCmd.InitFailureStopsPipeline` | cmd/allcmd/allcmd.go:67-71 | when Init of handler k is the first to fail, its error is returned unchanged, handlers 0..k have been initialised, later handlers are not, and no Exec ran |
| `AllCmd.ExecFailureStopsPipeline` | cmd/allcmd/allcmd.go:73-77 | when Exec of handler k is the first to fail, its error is returned unchanged, no handler after k is executed, and the executions of handlers 0..k stay in the trace, not undone |
| `AllCmd.NoExecBeforeAllInits` | cmd/allcmd/allcmd.go:67-77 | any Exec call comes after the Init calls of all handlers, in order, and only when every Init returned nil |
| `AllCmd.ExecGetsCallersArguments` | cmd/allcmd/allcmd.go:73-75 | every Exec call receives the context and arguments given to the pipeline |
| `AllCmd.SucceedsIffEveryStepSucceeds` | cmd/allcmd/allcmd.go:67-79 | the pipeline returns nil exactly when every Init and every Exec returns nil |
| `AllCmd.SuccessRunsEachHandlerOnce` | cmd/allcmd/allcmd.go:67-79 | on success each handler has exactly one Init call and exactly one later Exec call, and nothing else is called |
| `AllCmd.All.constructor` | cmd/allcmd/allcmd.go:23-28 | the command keeps its core and its three handlers, and its logger is not yet set |
| `AllCmd.All.Init` | cmd/allcmd/allcmd.go:50-53 | sets only the info logger, tagged with the command name "all", and always returns nil |
| `AllCmd.All.Exec` | cmd/allcmd/allcmd.go:56-81 | sets the logger, then runs the two phases over the fixed list builder, archivist, releaser; since Init never fails, nothing stops before the handler loops |
| `AllCmd.AllCommandOrder` | cmd/allcmd/allcmd.go:61-79 | a successful run initialises build, archive and release in that order, and then executes them in that order |

## Findings

| source | as written | input that shows it | evidently intended | confidence | as-written member | corrected member |
|---|---|---|---|---|---|---|
| internal/releases/github.go:70 | `errors.Is(err, TemporaryError{})` compares the error by value with a TemporaryError whose embedded error is nil. TemporaryError has neither an `Is` nor an `Unwrap` method, and the live upload only wraps non-nil errors, so the comparison never succeeds and the attempt never reports itself retryable | a live upload that fails with a 503 response returns `TemporaryError{e}` with `e` non-nil, which is not equal to `TemporaryError{}` | the comment on `UploadAssetsFileWithRetries` (line 61): retry whenever the upload returned the TemporaryError variant | not executed; high | `Releases.IsTemporaryAsWritten`, `Releases.AsWrittenNeverRetryable`, `Releases.AsWrittenMissesTransientFailure` | `Releases.IsTemporary`, `Releases.LiveUploadRetryableIff`, `Releases.UploadAttempt` |

The rest of the model, `UploadAttempt` included, uses the intended
classification `IsTemporary`.

## Left out

- main.go is not part of this model. It covers flag parsing, the `-try` switch that writes `faketoken` into the environment, copying flags into the environment, the timeout context, recovering from panics, timing and logging.
- Releases.UploadAttempt: an attempt where openFile returns a nil file and no error, with the live client, is excluded by a precondition. There the live client calls `f.Name()` on the nil file and panics (internal/releases/github.go:135), and panics are not modelled. Releases.UploadAssetsFile has the same precondition for the live client.
- `withRetries`, the retry loop that `UploadAssetsFileWithRetries` calls at internal/releases/github.go:63, is defined outside github.go and is not modelled: no attempt limit or delay is assumed. `UploadAttempt` models the closure it is given.
- Releases.GitHubClient.UploadAssetsFile: does not state the request it sends (owner, repository, release id and the asset's name). The name comes from `filepath.Base`, which is not modelled. The function models only how the answer is classified.
- Releases.GitHubClient.Release: the API's answer is a value given as input, so the effect of a real request (a release created on GitHub) is not modelled. The ReleaseSettings fields are taken as plain strings and flags.
- Releases.FakeClient.Release: the `fmt.Printf` line that the tests read is not modelled. The number from `rand.Int63` is a parameter of type `Int63`, which may be 0.
- Releases.NewClient: the oauth2 token source and the HTTP client are reduced to the token they carry.
- Error messages (`fmt.Errorf` text) are represented by structured error values. `External(id)` stands for any error from the API, the file system or a handler.
- Go's general `errors.Is` rules (unwrap chains, `Is` methods) are not modelled. Only the value comparison that applies at internal/releases/github.go:70 is modelled, in `IsTemporaryAsWritten`.
- The fake client's id comes from `rand.Int63`, which can return 0, so the model does not assume a non-zero id.
- `allcmd.New` (building the flag set and the `ffcli.Command`) is not modelled. Neither are the bodies of the build, archive and release handlers: they are represented only by the outcomes of their `Init` and `Exec`.
- Cancellation through the context is not modelled: a context is an opaque value passed on to every `Exec`.
