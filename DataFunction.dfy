/**
 * The script's top level: validate, build the client, run the query, and
 * turn the first failure into the one-row error table of the first
 * matching `except` clause.
 */
module DataFunction {
  import opened Options
  import opened Text
  import opened Exceptions
  import opened Validation
  import opened QueryBuilder
  import opened Vendor
  import opened Credentials

  /**
   * The target table and the key-path setting, as read from the environment
   * variables BQ_PROJECT, BQ_DATASET, BQ_TABLE and BQ_SERVICE_ACCOUNT_JSON;
   * `keyPath` is `None` when the variable is unset.
   */
  datatype Config = Config(project: string, dataset: string, table: string, keyPath: Option<string>)

  /** `_run_query`: builds the query and submits it through the client. */
  function RunQuery<Cred, Client, Frame>(
    client: Client, config: Config, inputs: Inputs, sdk: Sdk<Cred, Client, Frame>)
    : (r: Traced<Frame, Cred, Client>)
    ensures r.calls == [SubmitQuery(client, BuildQuery(config.project, config.dataset, config.table, inputs))]
    ensures r.attempt == sdk.runQuery(client, r.calls[0].query)
  {
    var q := BuildQuery(config.project, config.dataset, config.table, inputs);
    Traced(sdk.runQuery(client, q), [SubmitQuery(client, q)])
  }

  /** What one run of the script leaves behind, with the vendor calls it made. */
  datatype Invocation<Cred, Client, Frame> = Invocation(outcome: Outcome<Frame>, calls: seq<Call<Cred, Client>>)

  /** One run of the script: the `try` block and its four `except` clauses. */
  function Invoke<Cred, Client, Frame>(
    inputs: Inputs, config: Config, isFile: string -> bool, sdk: Sdk<Cred, Client, Frame>)
    : (r: Invocation<Cred, Client, Frame>)
    ensures |r.calls| <= 3
    ensures r.outcome.Escaped? ==> r.calls != [] && Classify(r.outcome.exc).None?
  {
    match Validate(inputs)
    case Raise(e) => Invocation(Handle(e), [])
    case Pass =>
      var built := BuildClient(config.keyPath, config.project, isFile, sdk);
      match built.attempt
      case Threw(e) => Invocation(Handle(e), built.calls)
      case Returned(client) =>
        var ran := RunQuery(client, config, inputs, sdk);
        var calls := built.calls + ran.calls;
        match ran.attempt
        case Threw(e) => Invocation(Handle(e), calls)
        case Returned(frame) => Invocation(Assigned(QueryFrame(frame)), calls)
  }

  /** Missing inputs are reported before any vendor call is made. */
  lemma MissingInputsReported<Cred, Client, Frame>(
    inputs: Inputs, config: Config, isFile: string -> bool, sdk: Sdk<Cred, Client, Frame>)
    requires Missing(inputs) != []
    ensures var r := Invoke(inputs, config, isFile, sdk);
      && r.calls == []
      && r.outcome == Assigned(ErrorTable(MissingInputsLabel, MissingMessage(Missing(inputs))))
      && ParseMissingMessage(r.outcome.table.rows[0][1]) == Some(Missing(inputs))
  {
    MissingMessageRoundTrip(Missing(inputs));
  }

  /** A blank or unset key path is reported as a configuration error, with no vendor call. */
  lemma BlankKeyPathReported<Cred, Client, Frame>(
    inputs: Inputs, config: Config, isFile: string -> bool, sdk: Sdk<Cred, Client, Frame>)
    requires Missing(inputs) == []
    requires KeyPath(config.keyPath) == ""
    ensures var r := Invoke(inputs, config, isFile, sdk);
      && r.calls == []
      && r.outcome == Assigned(ErrorTable(AuthConfigLabel, NotSetMessage))
  {
  }

  /**
   * A key path naming no file is reported as a configuration error whose
   * details give the path back, with no vendor call.
   */
  lemma MissingKeyFileReported<Cred, Client, Frame>(
    inputs: Inputs, config: Config, isFile: string -> bool, sdk: Sdk<Cred, Client, Frame>)
    requires Missing(inputs) == []
    requires KeyPath(config.keyPath) != "" && !isFile(KeyPath(config.keyPath))
    ensures var r := Invoke(inputs, config, isFile, sdk);
      && r.calls == []
      && r.outcome == Assigned(ErrorTable(AuthConfigLabel, NotFoundMessage(KeyPath(config.keyPath))))
      && ParseNotFoundMessage(r.outcome.table.rows[0][1]) == Some(KeyPath(config.keyPath))
  {
    NotFoundMessageRoundTrip(KeyPath(config.keyPath));
  }

  /** A failure while loading credentials is classified like any other exception; no client is built. */
  lemma CredentialsFailureReported<Cred, Client, Frame>(
    inputs: Inputs, config: Config, isFile: string -> bool, sdk: Sdk<Cred, Client, Frame>)
    requires Missing(inputs) == []
    requires KeyPath(config.keyPath) != "" && isFile(KeyPath(config.keyPath))
    requires sdk.fromServiceAccountFile(KeyPath(config.keyPath), [ReadOnlyScope]).Threw?
    ensures var r := Invoke(inputs, config, isFile, sdk);
      && r.calls == [LoadCredentials(KeyPath(config.keyPath), [ReadOnlyScope])]
      && r.outcome == Handle(sdk.fromServiceAccountFile(KeyPath(config.keyPath), [ReadOnlyScope]).exc)
  {
  }

  /**
   * A credentials failure that is a `ValueError` (and not an `OSError`) is
   * reported under the label meant for missing inputs, since that clause
   * comes before the generic one.
   */
  lemma CredentialsValueErrorLabelledAsMissingInputs<Cred, Client, Frame>(
    inputs: Inputs, config: Config, isFile: string -> bool, sdk: Sdk<Cred, Client, Frame>)
    requires Missing(inputs) == []
    requires KeyPath(config.keyPath) != "" && isFile(KeyPath(config.keyPath))
    requires var a := sdk.fromServiceAccountFile(KeyPath(config.keyPath), [ReadOnlyScope]);
      a.Threw? && a.exc.isValueError && !a.exc.isOSError
    ensures var r := Invoke(inputs, config, isFile, sdk);
      r.outcome.Assigned? && r.outcome.table.rows[0][0] == MissingInputsLabel
  {
  }

  /** A failure while building the client is classified; the query is not run. */
  lemma ClientFailureReported<Cred, Client, Frame>(
    inputs: Inputs, config: Config, isFile: string -> bool, sdk: Sdk<Cred, Client, Frame>, cred: Cred)
    requires Missing(inputs) == []
    requires KeyPath(config.keyPath) != "" && isFile(KeyPath(config.keyPath))
    requires sdk.fromServiceAccountFile(KeyPath(config.keyPath), [ReadOnlyScope]) == Returned(cred)
    requires sdk.newClient(config.project, cred).Threw?
    ensures var r := Invoke(inputs, config, isFile, sdk);
      && r.calls == [LoadCredentials(KeyPath(config.keyPath), [ReadOnlyScope]), CreateClient(config.project, cred)]
      && r.outcome == Handle(sdk.newClient(config.project, cred).exc)
  {
  }

  /**
   * Once a client exists the built query is submitted through it; a failure
   * is classified, and a success assigns the query's frame unchanged.
   */
  lemma QueryOutcomeReported<Cred, Client, Frame>(
    inputs: Inputs, config: Config, isFile: string -> bool, sdk: Sdk<Cred, Client, Frame>,
    cred: Cred, client: Client)
    requires Missing(inputs) == []
    requires KeyPath(config.keyPath) != "" && isFile(KeyPath(config.keyPath))
    requires sdk.fromServiceAccountFile(KeyPath(config.keyPath), [ReadOnlyScope]) == Returned(cred)
    requires sdk.newClient(config.project, cred) == Returned(client)
    ensures var r := Invoke(inputs, config, isFile, sdk);
      var q := BuildQuery(config.project, config.dataset, config.table, inputs);
      && r.calls == [
           LoadCredentials(KeyPath(config.keyPath), [ReadOnlyScope]),
           CreateClient(config.project, cred),
           SubmitQuery(client, q)]
      && r.outcome == match sdk.runQuery(client, q)
           case Returned(frame) => Assigned(QueryFrame(frame))
           case Threw(e) => Handle(e)
  {
  }

  /**
   * An `OSError` raised while running the query (for example the built-in
   * `TimeoutError` or `ConnectionError`) is caught by the first clause and
   * reported under the configuration-error label.
   */
  lemma QueryOSErrorLabelledAsConfiguration<Cred, Client, Frame>(
    inputs: Inputs, config: Config, isFile: string -> bool, sdk: Sdk<Cred, Client, Frame>,
    cred: Cred, client: Client)
    requires Missing(inputs) == []
    requires KeyPath(config.keyPath) != "" && isFile(KeyPath(config.keyPath))
    requires sdk.fromServiceAccountFile(KeyPath(config.keyPath), [ReadOnlyScope]) == Returned(cred)
    requires sdk.newClient(config.project, cred) == Returned(client)
    requires var a := sdk.runQuery(client, BuildQuery(config.project, config.dataset, config.table, inputs));
      a.Threw? && a.exc.isOSError
    ensures var r := Invoke(inputs, config, isFile, sdk);
      var a := sdk.runQuery(client, BuildQuery(config.project, config.dataset, config.table, inputs));
      r.outcome == Assigned(ErrorTable(AuthConfigLabel, a.exc.message))
  {
    QueryOutcomeReported(inputs, config, isFile, sdk, cred, client);
  }

  /**
   * Every run ends in exactly one of two ways: the output is assigned, or an
   * exception outside the `Exception` hierarchy raised by a vendor call
   * escapes. Every assigned error table has one row, the columns Error and
   * Details, and one of the four labels.
   */
  lemma OutcomeWellFormed<Cred, Client, Frame>(
    inputs: Inputs, config: Config, isFile: string -> bool, sdk: Sdk<Cred, Client, Frame>)
    ensures var r := Invoke(inputs, config, isFile, sdk);
      && (r.outcome.Escaped? ==>
            r.calls != [] && !r.outcome.exc.isException && !r.outcome.exc.isOSError
            && !r.outcome.exc.isValueError && !r.outcome.exc.isGoogleAPIError)
      && (r.outcome.Assigned? && r.outcome.table.ErrorFrame? ==>
            && r.outcome.table.columns == ["Error", "Details"]
            && |r.outcome.table.rows| == 1 && |r.outcome.table.rows[0]| == 2
            && r.outcome.table.rows[0][0] in Labels)
  {
    var r := Invoke(inputs, config, isFile, sdk);
    match Validate(inputs)
    case Raise(e) =>
      assert r.outcome == Handle(e);
    case Pass =>
      var built := BuildClient(config.keyPath, config.project, isFile, sdk);
      match built.attempt
      case Threw(e) =>
        assert r.outcome == Handle(e);
      case Returned(client) =>
        var ran := RunQuery(client, config, inputs, sdk);
        if ran.attempt.Threw? {
          assert r.outcome == Handle(ran.attempt.exc);
        }
  }

  /**
   * The vendor calls always come in the fixed order credentials, client,
   * query, each only after every earlier step succeeded, and the first only
   * after validation and both key-path checks passed.
   */
  lemma CallsInOrder<Cred, Client, Frame>(
    inputs: Inputs, config: Config, isFile: string -> bool, sdk: Sdk<Cred, Client, Frame>)
    ensures var r := Invoke(inputs, config, isFile, sdk);
      var path := KeyPath(config.keyPath);
      && (r.calls != [] ==>
            && Validate(inputs).Pass? && path != "" && isFile(path)
            && r.calls[0] == LoadCredentials(path, [ReadOnlyScope]))
      && (|r.calls| >= 2 ==>
            && r.calls[1].CreateClient? && r.calls[1].project == config.project
            && sdk.fromServiceAccountFile(path, [ReadOnlyScope]) == Returned(r.calls[1].credentials))
      && (|r.calls| == 3 ==>
            && r.calls[2].SubmitQuery?
            && r.calls[2].query == BuildQuery(config.project, config.dataset, config.table, inputs)
            && sdk.newClient(config.project, r.calls[1].credentials) == Returned(r.calls[2].client))
  {
  }

  /**
   * A worked case: valid inputs and a stub whose query returns three rows
   * yield exactly those rows, in the order returned.
   */
  lemma ExampleSuccess()
    ensures var sdk := Sdk(
        (path: string, scopes: seq<string>) => Returned(0),
        (project: string, cred: int) => Returned(0),
        (client: int, q: Query) => Returned(["row 1", "row 2", "row 3"]));
      var config := Config("your-gcp-project-id", "your_dataset", "your_table", Some("/keys/sa.json"));
      var inputs := Inputs(Some("wheat"), Some("midwest"), Some("2023-01-01"), Some("2023-12-31"));
      Invoke(inputs, config, (p: string) => true, sdk).outcome
        == Assigned(QueryFrame(["row 1", "row 2", "row 3"]))
  {
    var sdk := Sdk(
      (path: string, scopes: seq<string>) => Returned(0),
      (project: string, cred: int) => Returned(0),
      (client: int, q: Query) => Returned(["row 1", "row 2", "row 3"]));
    var config := Config("your-gcp-project-id", "your_dataset", "your_table", Some("/keys/sa.json"));
    var inputs := Inputs(Some("wheat"), Some("midwest"), Some("2023-01-01"), Some("2023-12-31"));
    PresentInputs();
    assert KeyPath(config.keyPath) != "" by {
      assert !IsSpace("/keys/sa.json"[0]);
      StripEmptyIff("/keys/sa.json");
    }
    QueryOutcomeReported(inputs, config, (p: string) => true, sdk, 0, 0);
  }

  lemma PresentInputs()
    ensures Missing(Inputs(Some("wheat"), Some("midwest"), Some("2023-01-01"), Some("2023-12-31"))) == []
  {
    var inputs := Inputs(Some("wheat"), Some("midwest"), Some("2023-01-01"), Some("2023-12-31"));
    NotBlank("wheat");
    NotBlank("midwest");
    NotBlank("2023-01-01");
    NotBlank("2023-12-31");
  }

  lemma NotBlank(v: string)
    requires v != [] && !IsSpace(v[0])
    ensures !IsMissing(Some(v))
  {
    StripEmptyIff(v);
  }
}
