/** The release client of internal/releases/github.go: the status classifier,
    the client factory, the live GitHub client, the fake client used by the
    pipeline's own tests, and one attempt of the retried asset upload.

    Everything the client reaches outside itself is an input here: the
    process environment is a map, os.ReadFile and openFile are outcomes, the
    hosting API's answers are response values and rand.Int63 is a drawn
    number. */
module Releases {
  import opened Common

  const TokenEnvVar := "GITHUB_TOKEN"

  /** The token that makes NewClient hand out the fake client. */
  const FakeToken := "faketoken"

  /** HTTP status codes, as in section 15 of RFC 9110. */
  const StatusCreated := 201
  const StatusBadRequest := 400
  const StatusUnprocessableEntity := 422

  /** releasetypes.Type: only GitHub is supported. */
  datatype ReleaseType = GitHub | OtherType(name: string)

  /** config.ReleaseSettings, the fields the client reads. */
  datatype ReleaseSettings = ReleaseSettings(
    repositoryOwner: string,
    repository: string,
    name: string,
    releaseNotesFilename: string,
    draft: bool,
    prerelease: bool,
    generateReleaseNotesOnHost: bool)

  /** An open *os.File; `name` is the path it was opened with. */
  datatype File = File(name: string, handle: nat)

  // ---------------------------------------------------------------------
  // Status classifier

  /** isTemporaryHttpStatus: every status is worth a retry except the two
      that say the request itself is malformed. */
  function IsTemporaryHttpStatus(status: int): (temporary: bool)
    ensures !temporary <==> status == StatusBadRequest || status == StatusUnprocessableEntity
  {
    match status
    case 422 => false
    case 400 => false
    case _ => true
  }

  // ---------------------------------------------------------------------
  // Client factory

  /** os.Getenv: an unset variable reads as the empty string. */
  function Getenv(env: map<string, string>, key: string): string {
    if key in env then env[key] else ""
  }

  /** The client NewClient decides to build. */
  datatype ClientChoice = FakeChoice | LiveChoice(token: string)

  /** The decision NewClient takes, before it allocates anything. */
  function SelectClient(typ: ReleaseType, env: map<string, string>): (r: Result<ClientChoice, Error>)
    ensures typ != GitHub ==> r == Failure(UnsupportedType)
    ensures typ == GitHub ==> (r.Failure? <==> Getenv(env, TokenEnvVar) == "")
    ensures typ == GitHub && Getenv(env, TokenEnvVar) == "" ==> r == Failure(MissingToken(TokenEnvVar))
    ensures r == Success(FakeChoice) <==> typ == GitHub && Getenv(env, TokenEnvVar) == FakeToken
    ensures r.Success? && r.value.LiveChoice? ==>
              r.value.token == Getenv(env, TokenEnvVar) && r.value.token != "" && r.value.token != FakeToken
  {
    if typ != GitHub then Failure(UnsupportedType)
    else
      var token := Getenv(env, TokenEnvVar);
      if token == "" then Failure(MissingToken(TokenEnvVar))
      else if token == FakeToken then Success(FakeChoice)
      else Success(LiveChoice(token))
  }

  /** The release type is checked before the token is read: for an
      unsupported type the environment makes no difference. */
  lemma TypeCheckedBeforeToken(typ: ReleaseType, env1: map<string, string>, env2: map<string, string>)
    requires typ != GitHub
    ensures SelectClient(typ, env1) == SelectClient(typ, env2)
    ensures SelectClient(typ, env1).Failure?
  {
  }

  /** The live client: the go-github client authenticated with the token. */
  datatype GitHubClient = GitHubClient(token: string) {

    /** GitHubClient.Release. `notes` is what os.ReadFile returns for the
        release-notes file; it is consulted only when a file name is set.
        `response` is what CreateRelease answers; it is consulted only when
        the request is sent. */
    function Release(tagName: string, committish: string, settings: ReleaseSettings,
                     notes: Result<string, Error>, response: CreateReleaseResponse): (r: ReleaseOutcome)
      ensures r.err.Some? ==> r.id == 0
      ensures r.call.None? <==> settings.releaseNotesFilename != "" && notes.Failure?
      ensures r.call.None? ==> r.err == Some(notes.error)
      ensures r.call.Some? ==>
                r.call.value.owner == settings.repositoryOwner &&
                r.call.value.repository == settings.repository &&
                r.call.value.release == NewRepositoryRelease(tagName, committish, settings,
                                          if settings.releaseNotesFilename == "" then "" else notes.value)
      ensures r.err.None? <==> r.call.Some? && response.err.None? && response.status == StatusCreated
      ensures r.err.None? ==> r.id == response.id
      ensures r.call.Some? && response.err.Some? ==> r.err == response.err
      ensures r.call.Some? && response.err.None? && response.status != StatusCreated ==>
                r.err == Some(UnexpectedStatus(response.status))
    {
      if settings.releaseNotesFilename != "" && notes.Failure? then
        ReleaseOutcome(0, Some(notes.error), None)
      else
        var body := if settings.releaseNotesFilename != "" then notes.value else "";
        var call := CreateReleaseCall(settings.repositoryOwner, settings.repository,
                                      NewRepositoryRelease(tagName, committish, settings, body));
        if response.err.Some? then ReleaseOutcome(0, response.err, Some(call))
        else if response.status != StatusCreated then
          ReleaseOutcome(0, Some(UnexpectedStatus(response.status)), Some(call))
        else ReleaseOutcome(response.id, None, Some(call))
    }

    /** GitHubClient.UploadAssetsFile: the outcome of UploadReleaseAsset
        sorted into success, a fatal error passed on as it is, or a
        TemporaryError around it. A response of None is a nil
        *github.Response. */
    function UploadAssetsFile(response: UploadResponse): (err: Option<Error>)
      ensures response.err.None? ==> err.None?
      ensures response.err.Some? && response.status.Some? && !IsTemporaryHttpStatus(response.status.value) ==>
                err == response.err
      ensures response.err.Some? && (response.status.None? || IsTemporaryHttpStatus(response.status.value)) ==>
                err == Some(TemporaryError(response.err))
    {
      if response.err.None? then None
      else if response.status.Some? && !IsTemporaryHttpStatus(response.status.value) then response.err
      else Some(TemporaryError(response.err))
    }
  }

  // ---------------------------------------------------------------------
  // Release creation

  /** github.RepositoryRelease, the request body of CreateRelease; None is a
      nil pointer, that is, a field left out of the request. */
  datatype RepositoryRelease = RepositoryRelease(
    tagName: Option<string>,
    targetCommitish: Option<string>,
    name: Option<string>,
    body: Option<string>,
    draft: Option<bool>,
    prerelease: Option<bool>,
    generateReleaseNotes: Option<bool>)

  /** The request CreateRelease is sent. */
  datatype CreateReleaseCall = CreateReleaseCall(owner: string, repository: string, release: RepositoryRelease)

  /** What CreateRelease answers: the new release's id, the HTTP status and
      the error, when the call failed. */
  datatype CreateReleaseResponse = CreateReleaseResponse(id: int64, status: int, err: Option<Error>)

  /** What GitHubClient.Release returns, together with the request it sent,
      if it sent one. */
  datatype ReleaseOutcome = ReleaseOutcome(id: int64, err: Option<Error>, call: Option<CreateReleaseCall>)

  /** The `s` helper of GitHubClient.Release: an empty string becomes an
      absent field and any other string is kept as it is. */
  function OptionalString(s: string): (p: Option<string>)
    ensures p.None? <==> s == ""
    ensures p.GetOr("") == s
  {
    if s == "" then None else Some(s)
  }

  /** The request GitHubClient.Release builds: the four strings become
      optional fields, the three flags are always sent. */
  function NewRepositoryRelease(tagName: string, committish: string, settings: ReleaseSettings,
                                body: string): (r: RepositoryRelease)
    ensures r.tagName.None? <==> tagName == ""
    ensures r.targetCommitish.None? <==> committish == ""
    ensures r.name.None? <==> settings.name == ""
    ensures r.body.None? <==> body == ""
    ensures r.tagName.GetOr("") == tagName && r.targetCommitish.GetOr("") == committish
    ensures r.name.GetOr("") == settings.name && r.body.GetOr("") == body
    ensures r.draft == Some(settings.draft)
    ensures r.prerelease == Some(settings.prerelease)
    ensures r.generateReleaseNotes == Some(settings.generateReleaseNotesOnHost)
  {
    RepositoryRelease(
      OptionalString(tagName),
      OptionalString(committish),
      OptionalString(settings.name),
      OptionalString(body),
      Some(settings.draft),
      Some(settings.prerelease),
      Some(settings.generateReleaseNotesOnHost))
  }

  /** The request loses nothing: requests built from different inputs differ. */
  lemma RequestDeterminesInputs(t1: string, c1: string, s1: ReleaseSettings, b1: string,
                                t2: string, c2: string, s2: ReleaseSettings, b2: string)
    requires NewRepositoryRelease(t1, c1, s1, b1) == NewRepositoryRelease(t2, c2, s2, b2)
    ensures t1 == t2 && c1 == c2 && b1 == b2 && s1.name == s2.name
    ensures s1.draft == s2.draft && s1.prerelease == s2.prerelease
    ensures s1.generateReleaseNotesOnHost == s2.generateReleaseNotesOnHost
  {
  }

  /** Release creation never yields a TemporaryError of its own making, so
      it is never retried: every error is the notes file's, the API's, or an
      unexpected status. */
  lemma ReleaseErrorsAreFatal(c: GitHubClient, tagName: string, committish: string, settings: ReleaseSettings,
                              notes: Result<string, Error>, response: CreateReleaseResponse)
    requires notes.Failure? ==> !notes.error.TemporaryError?
    requires response.err.Some? ==> !response.err.value.TemporaryError?
    ensures var r := c.Release(tagName, committish, settings, notes, response);
            r.err.Some? ==> !IsTemporary(r.err)
  {
  }

  // ---------------------------------------------------------------------
  // Asset upload

  /** What UploadReleaseAsset answers: the status of the HTTP response, None
      when there is no response, and the error, when the call failed. */
  datatype UploadResponse = UploadResponse(status: Option<int>, err: Option<Error>)

  /** The classification the attempt closure means to make, as the comment
      on UploadAssetsFileWithRetries says: the upload returned the
      TemporaryError variant. */
  predicate IsTemporary(err: Option<Error>): (temporary: bool)
    ensures err.None? ==> !temporary
    ensures err.Some? ==> (temporary <==> err.value.TemporaryError?)
  {
    err.Some? && err.value.TemporaryError?
  }

  /** errors.Is(err, TemporaryError{}) as Go evaluates it. TemporaryError has
      neither an Is nor an Unwrap method, so errors.Is comes down to the
      comparison err == TemporaryError{}, by value, against a TemporaryError
      whose embedded error is nil. */
  predicate IsTemporaryAsWritten(err: Option<Error>): (matches: bool)
    ensures matches <==> IsTemporary(err) && err.value.inner.None?
  {
    err.Some? && err.value == TemporaryError(None)
  }

  /** The live upload is retryable exactly when it failed and the status
      was missing or not one of the two fatal ones. The hosting API's own
      errors are never this package's TemporaryError. */
  lemma LiveUploadRetryableIff(c: GitHubClient, response: UploadResponse)
    requires response.err.Some? ==> !response.err.value.TemporaryError?
    ensures IsTemporary(c.UploadAssetsFile(response)) <==>
              response.err.Some? &&
              (response.status.None? ||
               (response.status.value != StatusBadRequest && response.status.value != StatusUnprocessableEntity))
  {
  }

  /** The live upload never invents or drops an error: it fails exactly
      when the API call failed, and then returns the API's error either as
      it is or inside a TemporaryError. */
  lemma LiveUploadKeepsOriginalError(c: GitHubClient, response: UploadResponse)
    ensures var err := c.UploadAssetsFile(response);
            (err.None? <==> response.err.None?) &&
            (err == response.err || err == Some(TemporaryError(response.err)))
  {
  }

  /** As written, no upload error ever passes the classification: the live
      client's TemporaryError always wraps a non-nil error, so it is never
      equal to TemporaryError{}, and the fake client returns no
      TemporaryError at all. */
  lemma AsWrittenNeverRetryable(client: Client, settings: ReleaseSettings, f: Option<File>, releaseID: int64,
                                response: UploadResponse)
    requires client.Live? ==> f.Some?
    requires response.err.Some? ==> !response.err.value.TemporaryError?
    ensures !IsTemporaryAsWritten(UploadAssetsFile(client, settings, f, releaseID, response))
  {
  }

  /** A transient failure (HTTP 503) that the intended classification
      retries and the written one does not. */
  lemma AsWrittenMissesTransientFailure(c: GitHubClient)
    ensures var err := c.UploadAssetsFile(UploadResponse(Some(503), Some(External(0))));
            IsTemporary(err) && !IsTemporaryAsWritten(err)
  {
  }

  // ---------------------------------------------------------------------
  // Fake client

  /** FakeClient: remembers the id of the last release it pretended to
      create and accepts uploads only against that id. */
  class FakeClient {
    var releaseID: int64

    constructor ()
      ensures releaseID == 0
    {
      releaseID := 0;
    }

    /** FakeClient.Release: `drawn` is the number rand.Int63 returns. */
    method Release(tagName: string, committish: string, settings: ReleaseSettings, drawn: Int63)
      returns (id: int64, err: Option<Error>)
      modifies this
      ensures releaseID == drawn && id == releaseID
      ensures err.None?
    {
      releaseID := drawn;
      id, err := releaseID, None;
    }

    /** FakeClient.UploadAssetsFile; a file of None is a nil *os.File. The id
        is checked before the file, and the stored id is only read. */
    function UploadAssetsFile(settings: ReleaseSettings, f: Option<File>, id: int64): (err: Option<Error>)
      reads this
      ensures err.None? <==> releaseID == id && f.Some?
      ensures releaseID != id ==> err == Some(ReleaseIdMismatch(releaseID, id))
      ensures releaseID == id && f.None? ==> err == Some(NilFile)
    {
      if releaseID != id then Some(ReleaseIdMismatch(releaseID, id))
      else if f.None? then Some(NilFile)
      else None
    }
  }

  /** A dry run: after a release, an upload against another id fails, one
      against the release's id succeeds with a file and fails without one,
      and a second release makes the first id stale. */
  method DryRun(settings: ReleaseSettings, f: File, first: Int63, other: int64, second: Int63)
    returns (mismatched: Option<Error>, uploaded: Option<Error>, nilFile: Option<Error>, stale: Option<Error>)
    requires other != first && second != first
    ensures mismatched == Some(ReleaseIdMismatch(first, other))
    ensures uploaded.None?
    ensures nilFile == Some(NilFile)
    ensures stale == Some(ReleaseIdMismatch(second, first))
  {
    var client := new FakeClient();
    var id, _ := client.Release("v1.0.0", "main", settings, first);
    mismatched := client.UploadAssetsFile(settings, Some(f), other);
    uploaded := client.UploadAssetsFile(settings, Some(f), id);
    nilFile := client.UploadAssetsFile(settings, None, id);
    var _, _ := client.Release("v1.0.1", "main", settings, second);
    stale := client.UploadAssetsFile(settings, Some(f), id);
  }

  // ---------------------------------------------------------------------
  // The Client interface

  /** The two implementations of the Client interface. */
  datatype Client = Fake(fake: FakeClient) | Live(live: GitHubClient)

  /** NewClient: the choice of SelectClient, with a fresh fake client, whose
      id is still zero, for the fake token. */
  method NewClient(typ: ReleaseType, env: map<string, string>) returns (r: Result<Client, Error>)
    ensures r.Failure? ==> SelectClient(typ, env) == Failure(r.error)
    ensures r.Success? && r.value.Fake? ==>
              SelectClient(typ, env) == Success(FakeChoice) && fresh(r.value.fake) && r.value.fake.releaseID == 0
    ensures r.Success? && r.value.Live? ==> SelectClient(typ, env) == Success(LiveChoice(r.value.live.token))
    ensures r.Success? <==> SelectClient(typ, env).Success?
  {
    var choice := SelectClient(typ, env);
    match choice
    case Failure(e) =>
      r := Failure(e);
    case Success(FakeChoice) =>
      var c := new FakeClient();
      r := Success(Fake(c));
    case Success(LiveChoice(token)) =>
      r := Success(Live(GitHubClient(token)));
  }

  /** Client.UploadAssetsFile, dispatched to the implementation at hand.
      `liveResponse` is what the API answers, if the client is the live one.
      The live client needs a file: it reads the file's name to name the
      asset, which panics on a nil *os.File. Only the live client can
      return a TemporaryError. */
  function UploadAssetsFile(client: Client, settings: ReleaseSettings, f: Option<File>, releaseID: int64,
                            liveResponse: UploadResponse): (err: Option<Error>)
    requires client.Live? ==> f.Some?
    reads if client.Fake? then {client.fake} else {}
    ensures client.Live? ==> err == client.live.UploadAssetsFile(liveResponse)
    ensures client.Fake? ==> err == client.fake.UploadAssetsFile(settings, f, releaseID)
    ensures client.Fake? ==> !IsTemporary(err)
  {
    match client
    case Fake(c) => c.UploadAssetsFile(settings, f, releaseID)
    case Live(c) => c.UploadAssetsFile(liveResponse)
  }

  // ---------------------------------------------------------------------
  // One attempt of UploadAssetsFileWithRetries

  /** What happens to the file of one attempt, in order. An upload of None
      is one handed a nil *os.File. */
  datatype FileEvent = Opened(file: File) | Uploaded(upload: Option<File>, releaseID: int64) | Closed(file: File)

  /** Every file the events open is closed afterwards, and nothing is
      uploaded from a file that is not open. */
  ghost predicate ClosesWhatItOpens(events: seq<FileEvent>) {
    (forall i :: 0 <= i < |events| && events[i].Opened? ==>
       exists j :: i < j < |events| && events[j] == Closed(events[i].file)) &&
    (forall i :: 0 <= i < |events| && events[i].Uploaded? && events[i].upload.Some? ==>
       (exists o :: 0 <= o < i && events[o] == Opened(events[i].upload.value) &&
                    forall c :: o < c < i ==> events[c] != Closed(events[i].upload.value)) &&
       (exists c :: i < c < |events| && events[c] == Closed(events[i].upload.value)))
  }

  /** The closure UploadAssetsFileWithRetries hands to its retry loop.
      `openResult` is what openFile returns on this attempt: an error, or a
      file that may be nil. A fresh file is opened on every attempt and
      closed on every path once opened; a nil file is handed on to the
      upload as it is, which the live client cannot take. */
  method UploadAttempt(client: Client, settings: ReleaseSettings, releaseID: int64,
                       openResult: Result<Option<File>, Error>, liveResponse: UploadResponse)
    returns (err: Option<Error>, retryable: bool, ghost events: seq<FileEvent>)
    requires client.Live? && openResult.Success? ==> openResult.value.Some?
    ensures openResult.Failure? ==> err == Some(openResult.error) && !retryable && events == []
    ensures openResult.Success? ==>
              err == UploadAssetsFile(client, settings, openResult.value, releaseID, liveResponse)
    ensures openResult.Success? && openResult.value.Some? ==>
              var f := openResult.value.value;
              events == [Opened(f), Uploaded(Some(f), releaseID), Closed(f)]
    ensures openResult == Success(None) ==> events == [Uploaded(None, releaseID)]
    ensures retryable <==> openResult.Success? && IsTemporary(err)
    ensures ClosesWhatItOpens(events)
  {
    events := [];
    if openResult.Failure? {
      return Some(openResult.error), false, events;
    }
    var f := openResult.value;
    if f.Some? {
      events := events + [Opened(f.value)];
    }
    err := UploadAssetsFile(client, settings, f, releaseID, liveResponse);
    events := events + [Uploaded(f, releaseID)];
    retryable := IsTemporary(err);
    if f.Some? {
      // The deferred f.Close(); on a nil file it closes nothing.
      events := events + [Closed(f.value)];
      assert events[0] == Opened(f.value) && events[2] == Closed(f.value);
    }
  }
}
