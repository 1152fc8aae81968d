/**
 * Python exceptions as the top-level `try` sees them, and the error table
 * that each `except` clause assigns to the output.
 */
module Exceptions {
  import opened Options

  /**
   * A raised exception, described by the `isinstance` tests the handlers make
   * and by `str(exc)`. The flags are independent because Python classes may
   * inherit from several of these at once. `isException` is false only for
   * exceptions deriving solely from `BaseException` (such as
   * `KeyboardInterrupt`), which `except Exception` does not catch.
   * `EnvironmentError` is an alias of `OSError`.
   */
  datatype Raised = Raised(
    isOSError: bool,
    isValueError: bool,
    isGoogleAPIError: bool,
    isException: bool,
    message: string)
  {
    /** Python's hierarchy: `OSError`, `ValueError` and `GoogleAPIError` all derive from `Exception`. */
    predicate WellFormed() {
      (isOSError || isValueError || isGoogleAPIError) ==> isException
    }
  }

  /** `raise EnvironmentError(message)`: caught by the first clause, with `str(exc)` the message. */
  function EnvironmentError(message: string): (e: Raised)
    ensures e.WellFormed() && e.message == message
    ensures Classify(e) == Some(AuthConfigLabel)
  {
    Raised(true, false, false, true, message)
  }

  /** `raise ValueError(message)`: caught by the second clause, with `str(exc)` the message. */
  function ValueError(message: string): (e: Raised)
    ensures e.WellFormed() && e.message == message
    ensures Classify(e) == Some(MissingInputsLabel)
  {
    Raised(false, true, false, true, message)
  }

  /** The result of one step: the value it returned, or the exception it raised. */
  datatype Attempt<+T> = Returned(value: T) | Threw(exc: Raised)

  /** A step that returns nothing: it either passes or raises. */
  datatype Check = Pass | Raise(exc: Raised)

  const AuthConfigLabel := "Authentication configuration error"
  const MissingInputsLabel := "Missing input parameters"
  const ApiErrorLabel := "BigQuery API error"
  const UnexpectedLabel := "Unexpected error"

  const Labels: seq<string> := [AuthConfigLabel, MissingInputsLabel, ApiErrorLabel, UnexpectedLabel]
  const ErrorColumns: seq<string> := ["Error", "Details"]

  /**
   * The `Error` label chosen by the first `except` clause that matches, in
   * the order OSError, ValueError, GoogleAPIError, Exception; `None` when no
   * clause matches and the exception leaves the script.
   */
  function Classify(e: Raised): (r: Option<string>)
    ensures r.Some? <==> e.isOSError || e.isValueError || e.isGoogleAPIError || e.isException
    ensures r.Some? ==> r.value in Labels
    ensures e.isOSError ==> r == Some(AuthConfigLabel)
    ensures r == Some(MissingInputsLabel) <==> !e.isOSError && e.isValueError
    ensures r == Some(ApiErrorLabel) <==> !e.isOSError && !e.isValueError && e.isGoogleAPIError
    ensures r == Some(UnexpectedLabel) <==>
      !e.isOSError && !e.isValueError && !e.isGoogleAPIError && e.isException
    ensures e.WellFormed() ==> (r.None? <==> !e.isException)
  {
    if e.isOSError then Some(AuthConfigLabel)
    else if e.isValueError then Some(MissingInputsLabel)
    else if e.isGoogleAPIError then Some(ApiErrorLabel)
    else if e.isException then Some(UnexpectedLabel)
    else None
  }

  /**
   * The output table: the query's own frame, passed through untouched, or
   * the synthetic frame built by a handler, given by its columns and rows.
   */
  datatype Table<+Frame> =
    | QueryFrame(frame: Frame)
    | ErrorFrame(columns: seq<string>, rows: seq<seq<string>>)

  /** `pd.DataFrame({"Error": [category], "Details": [details]})`: one row under two columns. */
  function ErrorTable<Frame>(category: string, details: string): (t: Table<Frame>)
    ensures t.ErrorFrame? && t.columns == ["Error", "Details"]
    ensures |t.rows| == 1 && t.rows[0] == [category, details]
  {
    ErrorFrame(ErrorColumns, [[category, details]])
  }

  /** What the script leaves behind: an assigned `result_df`, or an exception that escaped. */
  datatype Outcome<+Frame> = Assigned(table: Table<Frame>) | Escaped(exc: Raised)

  /**
   * The `except` clauses: a caught exception becomes a one-row table whose
   * `Error` is the first matching label and whose `Details` is `str(exc)`.
   */
  function Handle<Frame>(e: Raised): (r: Outcome<Frame>)
    ensures r.Escaped? <==> Classify(e).None?
    ensures r.Escaped? ==> r.exc == e
    ensures r.Assigned? ==>
      && r.table.ErrorFrame?
      && r.table.columns == ["Error", "Details"]
      && |r.table.rows| == 1
      && |r.table.rows[0]| == 2
      && r.table.rows[0][0] in Labels
      && Some(r.table.rows[0][0]) == Classify(e)
      && r.table.rows[0][1] == e.message
  {
    match Classify(e)
    case Some(category) => Assigned(ErrorTable(category, e.message))
    case None => Escaped(e)
  }

  /** Every exception deriving from `Exception` is caught and turned into a table. */
  lemma ExceptionsAreCaught<Frame>(e: Raised)
    requires e.isException
    ensures Handle<Frame>(e).Assigned?
  {
  }

  /** An exception that is both an `OSError` and a `ValueError` is reported by the earlier clause. */
  lemma EarlierClauseWins<Frame>(e: Raised)
    requires e.isOSError && e.isValueError
    ensures Handle<Frame>(e) == Assigned(ErrorTable(AuthConfigLabel, e.message))
  {
  }
}
