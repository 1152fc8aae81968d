/** `_build_client`: the key-path gate, then credentials, then the client. */
module Credentials {
  import opened Options
  import opened Text
  import opened PyRepr
  import opened Exceptions
  import opened Vendor

  /** The environment variable naming the service-account key file. */
  const EnvKey := "BQ_SERVICE_ACCOUNT_JSON"

  /** The one OAuth scope requested: read-only BigQuery access. */
  const ReadOnlyScope := "https://www.googleapis.com/auth/bigquery.readonly"

  /** The variable's name in single quotes, as both messages print it. */
  const QuotedEnvKey := "'" + EnvKey + "'"

  const NotSetMessage := "Environment variable " + (QuotedEnvKey + NotSetRest)
  const NotSetRest := " is not set.  Set it to the path of your Google Cloud service-account JSON key file."

  /** The not-set message names the variable. */
  lemma NotSetMessageNamesVariable()
    ensures Contains(NotSetMessage, QuotedEnvKey)
  {
    ContainsFront(QuotedEnvKey, NotSetRest);
    ContainsBehind("Environment variable ", QuotedEnvKey + NotSetRest, QuotedEnvKey);
  }

  const NotFoundPrefix := "Service-account key file not found: "
  const NotFoundSuffix := NotFoundHint + QuotedEnvKey + " environment variable."
  const NotFoundHint := ".  Verify the path stored in the "

  /**
   * The message for a key file that is not there: a fixed prefix, the
   * path's `repr`, and a fixed suffix (`NotFoundMessageRoundTrip` reads the
   * path back).
   */
  function NotFoundMessage(path: string): (msg: string)
    ensures |msg| == |NotFoundPrefix| + |Repr(path)| + |NotFoundSuffix|
    ensures NotFoundPrefix <= msg
    ensures msg[|NotFoundPrefix|..|NotFoundPrefix| + |Repr(path)|] == Repr(path)
    ensures msg[|msg| - |NotFoundSuffix|..] == NotFoundSuffix
  {
    NotFoundPrefix + Repr(path) + NotFoundSuffix
  }

  /** The not-found message holds the path's `repr` and names the variable. */
  lemma NotFoundMessageContents(path: string)
    ensures Contains(NotFoundMessage(path), Repr(path))
    ensures Contains(NotFoundMessage(path), QuotedEnvKey)
  {
    var r := Repr(path);
    ContainsBetween(NotFoundPrefix, r, NotFoundSuffix);
    ContainsBetween(NotFoundHint, QuotedEnvKey, " environment variable.");
    ContainsBehind(NotFoundPrefix + r, NotFoundSuffix, QuotedEnvKey);
  }

  /** `os.environ.get(_ENV_KEY, "").strip()`, with the variable's value passed in. */
  function KeyPath(setting: Option<string>): (path: string)
    ensures setting.None? ==> path == ""
    ensures |path| <= |setting.GetOr("")| && Trimmed(path)
  {
    Strip(setting.GetOr(""))
  }

  /**
   * The two checks before any credentials are read: a blank path, then a
   * path that names no file, each raise `EnvironmentError`; otherwise the
   * stripped path is returned. `isFile` stands for `os.path.isfile`.
   */
  function CheckKeyPath(setting: Option<string>, isFile: string -> bool): (r: Attempt<string>)
    ensures r.Returned? <==> KeyPath(setting) != "" && isFile(KeyPath(setting))
    ensures r.Returned? ==> r.value == KeyPath(setting) && Trimmed(r.value)
    ensures KeyPath(setting) == "" ==> r == Threw(EnvironmentError(NotSetMessage))
    ensures KeyPath(setting) != "" && !isFile(KeyPath(setting)) ==>
      r == Threw(EnvironmentError(NotFoundMessage(KeyPath(setting))))
  {
    var path := KeyPath(setting);
    if path == "" then Threw(EnvironmentError(NotSetMessage))
    else if !isFile(path) then Threw(EnvironmentError(NotFoundMessage(path)))
    else Returned(path)
  }

  /**
   * `_build_client`: no vendor call unless both checks pass; then the
   * credentials are loaded from the stripped path with the read-only scope,
   * and the client is built for `project` only if that succeeded.
   */
  function BuildClient<Cred, Client, Frame>(
    setting: Option<string>, project: string, isFile: string -> bool, sdk: Sdk<Cred, Client, Frame>)
    : (r: Traced<Client, Cred, Client>)
    ensures r.calls == [] <==> CheckKeyPath(setting, isFile).Threw?
    ensures r.calls == [] ==> r.attempt == Threw(CheckKeyPath(setting, isFile).exc)
    ensures |r.calls| <= 2
    ensures r.calls != [] ==> r.calls[0] == LoadCredentials(KeyPath(setting), [ReadOnlyScope])
    ensures |r.calls| == 1 ==>
      && sdk.fromServiceAccountFile(KeyPath(setting), [ReadOnlyScope]).Threw?
      && r.attempt == Threw(sdk.fromServiceAccountFile(KeyPath(setting), [ReadOnlyScope]).exc)
    ensures |r.calls| == 2 ==>
      && r.calls[1].CreateClient?
      && r.calls[1] == CreateClient(project, r.calls[1].credentials)
      && sdk.fromServiceAccountFile(KeyPath(setting), [ReadOnlyScope])
         == Returned(r.calls[1].credentials)
      && r.attempt == sdk.newClient(project, r.calls[1].credentials)
    ensures r.attempt.Returned? ==> |r.calls| == 2
  {
    match CheckKeyPath(setting, isFile)
    case Threw(e) => Traced(Threw(e), [])
    case Returned(path) =>
      var load := LoadCredentials(path, [ReadOnlyScope]);
      match sdk.fromServiceAccountFile(path, [ReadOnlyScope])
      case Threw(e) => Traced(Threw(e), [load])
      case Returned(cred) => Traced(sdk.newClient(project, cred), [load, CreateClient(project, cred)])
  }

  /** Reads the path back out of a key-file-not-found message. */
  function ParseNotFoundMessage(msg: string): Option<string> {
    if |msg| >= |NotFoundPrefix| + |NotFoundSuffix| && NotFoundPrefix <= msg
      && msg[|msg| - |NotFoundSuffix|..] == NotFoundSuffix
    then Unrepr(msg[|NotFoundPrefix|..|msg| - |NotFoundSuffix|])
    else None
  }

  /** The not-found message carries the path recoverably, whatever characters it holds. */
  lemma NotFoundMessageRoundTrip(path: string)
    ensures ParseNotFoundMessage(NotFoundMessage(path)) == Some(path)
  {
    var msg := NotFoundMessage(path);
    var r := Repr(path);
    assert msg[|msg| - |NotFoundSuffix|..] == NotFoundSuffix;
    assert msg[|NotFoundPrefix|..|msg| - |NotFoundSuffix|] == r;
    ReprRoundTrip(path);
  }

  /** An ASCII path without quotes, backslashes or control characters appears verbatim, in single quotes. */
  lemma NotFoundMessagePlain(path: string)
    requires Plain(path)
    ensures NotFoundMessage(path) == NotFoundPrefix + "'" + path + "'" + NotFoundSuffix
  {
    ReprPlain(path);
  }

  /** The two messages are told apart by their first character. */
  lemma MessagesDiffer(path: string)
    ensures NotSetMessage != NotFoundMessage(path)
  {
    assert NotSetMessage[0] == 'E';
    assert NotFoundMessage(path)[0] == 'S';
  }
}
