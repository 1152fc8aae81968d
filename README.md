# BigQuery crop/region data function: a Dafny model

The modelled program is a Spotfire Python data function. Spotfire hands it four
filters: `crop`, `region`, `start_date` and `end_date`. The function checks that
all four are present. It then builds a BigQuery client from a service-account
key file named by the environment variable `BQ_SERVICE_ACCOUNT_JSON`, runs one
parameterised query against a configured table, and assigns `result_df`. That
output is either the query's frame or a one-row `{Error, Details}` table.

The model consists of pure functions and lemmas, one module per concern:

- `Text` — Python's `str.strip()` over the exact `str.isspace()` character set, `str.join`, and a `split` that undoes `join`.
- `PyRepr` — `repr()` of a `str`, which the `!r` conversion puts in the key-file-not-found message, and its decoder.
- `Exceptions` — a raised exception, described by the `isinstance` tests the handlers make; the first-match `except` chain; the error table.
- `Validation` — `_validate_inputs`.
- `QueryBuilder` — the SQL text and the bound parameters of `_run_query`.
- `Vendor` — the three vendor calls as abstract function parameters, and a record of the calls made.
- `Credentials` — `_build_client`: the key-path gate, then the credentials, then the client.
- `DataFunction` — `_run_query` and the top-level `try`/`except`.

The vendor steps are parameters of type `Sdk`. Each step returns an opaque value
or raises an abstract `Raised` exception. The exception records which of
`OSError` (`EnvironmentError` is its alias), `ValueError`, `GoogleAPIError` and
`Exception` it is an instance of. These flags are independent, so an SDK
exception that inherits from several of them is classified by the first clause
that matches, just as Python does. Every run also returns the list of vendor
calls it made, with their arguments. This list is what shows that later steps
are skipped after an earlier failure.

Three behaviours of the code are easy to miss, and the model states them:

- There is no separate "authentication error" category. An exception raised while loading credentials or building the client goes through the same four clauses as any other (`CredentialsFailureReported`). If that exception is a `ValueError` and not an `OSError`, it is labelled "Missing input parameters" (`CredentialsValueErrorLabelledAsMissingInputs`). An `OSError` from a vendor step (for example the built-in `TimeoutError` or `ConnectionError`) is labelled "Authentication configuration error" (`QueryOSErrorLabelledAsConfiguration`).
- The error table always has exactly one row.
- `result_df` is not assigned on every path. An exception that derives only from `BaseException`, such as `KeyboardInterrupt`, passes through `except Exception` and leaves the script (`Outcome.Escaped`, `OutcomeWellFormed`). Of the script's own steps, only the vendor calls raise one.

## Model

| member | source | states |
|---|---|---|
| Text.Strip | bigquery_data_function.py:89 | the stripped string is no longer than the input and has no whitespace at either end |
| Text.IsSpace | bigquery_data_function.py:89 | among ASCII characters exactly space, tab, newline, carriage return, vertical tab, form feed and the four separators 0x1C-0x1F count as whitespace; no whitespace character lies above U+3000 |
| Text.LStripSpec | bigquery_data_function.py:107 | the leading pass of `strip` removes exactly the longest all-whitespace prefix: the rest is a suffix of the input that does not start with whitespace |
| Text.RStripSpec | bigquery_data_function.py:107 | the trailing pass of `strip` removes exactly the longest all-whitespace suffix |
| Text.StripSpec | bigquery_data_function.py:136-139 | `strip` returns a contiguous slice of the input; only whitespace lies before and after it, and neither end of the slice is whitespace |
| Text.StripOfPadded | bigquery_data_function.py:89 | independent characterisation: whitespace + trimmed middle + whitespace strips to that middle |
| Text.StripIdempotent | bigquery_data_function.py:136-139 | stripping an already stripped value changes nothing |
| Text.StripEmptyIff | bigquery_data_function.py:89 | a string strips to empty exactly when every character is whitespace (both directions) |
| Text.SplitJoin | bigquery_data_function.py:94 | `", ".join` loses nothing: splitting the joined text at the separator gives back the parts, provided no part contains a comma |
| Text.Join | bigquery_data_function.py:94 | joining no parts gives the empty string; otherwise the text starts with the first part and ends with the last |
| PyRepr.Repr | bigquery_data_function.py:115 | `repr` of a path is quoted at both ends with the quote Python picks |
| PyRepr.QuoteFor | bigquery_data_function.py:115 | double quotes exactly when the string contains a single quote and no double quote; single quotes otherwise |
| PyRepr.ReprRoundTrip | bigquery_data_function.py:115 | the `repr` literal decodes back to the original string, for every string |
| PyRepr.ReprPlain | bigquery_data_function.py:115 | an ASCII path without quotes, backslashes or control characters is printed as itself between single quotes |
| Exceptions.Classify | bigquery_data_function.py:163-185 | first-match classification: OSError gives the configuration label; else ValueError gives the missing-input label; else GoogleAPIError gives the API label; else any Exception gives the unexpected label; otherwise nothing catches it |
| Exceptions.EnvironmentError | bigquery_data_function.py:109-117 | the exception raised by the key-path checks keeps its message, belongs to the `Exception` hierarchy and is labelled as a configuration error |
| Exceptions.ValueError | bigquery_data_function.py:92-95 | the validation exception keeps its message, belongs to the `Exception` hierarchy and is labelled as missing inputs |
| Exceptions.ErrorTable | bigquery_data_function.py:165-184 | the error table has the columns Error and Details and a single row holding the label and the details |
| Exceptions.Handle | bigquery_data_function.py:163-185 | a caught exception becomes a table with columns Error and Details and one row holding its label and `str(exc)`; an uncaught one escapes unchanged |
| Exceptions.ExceptionsAreCaught | bigquery_data_function.py:181-185 | every `Exception` subclass is turned into a table |
| Exceptions.EarlierClauseWins | bigquery_data_function.py:163-173 | an exception that is both an OSError and a ValueError is reported by the earlier OSError clause |
| Validation.IsMissingIff | bigquery_data_function.py:89 | an input counts as missing exactly when it is absent or all whitespace |
| Validation.IsMissing | bigquery_data_function.py:89 | an absent value is missing; a value whose first character is not whitespace is not |
| Validation.MissingAmong | bigquery_data_function.py:81-90 | the comprehension keeps exactly the missing fields of its list and keeps their order |
| Validation.Missing | bigquery_data_function.py:81-90 | a field is reported exactly when its input is missing; reported fields are ordered crop, region, start_date, end_date, without repeats, at most four |
| Validation.Names | bigquery_data_function.py:81-88 | one name per field, in the same order, each the field's own name |
| Validation.MissingMessage | bigquery_data_function.py:92-94 | the message starts with the fixed prefix, and the joined names then start with the first reported field and end with the last |
| Validation.Validate | bigquery_data_function.py:91-95 | a `ValueError` is raised exactly when the missing list is non-empty; its message is the fixed prefix followed by the names joined with ", " |
| Validation.ValidatedInputsPresent | bigquery_data_function.py:79-95 | after a passing validation every input is present and non-blank |
| Validation.MissingMessageRoundTrip | bigquery_data_function.py:91-95 | the validation message decodes back to exactly the reported fields |
| Validation.MissingMessageInjective | bigquery_data_function.py:91-95 | two failing validations that produce the same message report the same fields |
| Validation.ExampleReport | bigquery_data_function.py:79-95 | absent crop, blank region, present start date and empty end date give the message naming crop, region and end_date, in that order |
| QueryBuilder.BuildQuery | bigquery_data_function.py:128-141 | the SQL is the template filled with project, dataset and table only; the parameters are exactly crop/STRING, region/STRING, start_date/DATE, end_date/DATE in that order, each holding the stripped `str()` of its input; each is referenced as `@name` in the SQL |
| QueryBuilder.SqlTextShape | bigquery_data_function.py:64-72 | the only varying part of the SQL text is `project.dataset.table`, which sits right after the opening back-quote of the FROM clause and is followed by the fixed conditions, so the text contains the table reference |
| QueryBuilder.ParamType | bigquery_data_function.py:136-139 | crop and region are bound as STRING, start_date and end_date as DATE |
| QueryBuilder.PyStr | bigquery_data_function.py:136-139 | `str()` of a given value is the value itself; of an absent one, `None` |
| QueryBuilder.ParameterFor | bigquery_data_function.py:136-139 | each parameter carries its field's name and type and a value with no whitespace at either end, which is the stripped input when one was given |
| QueryBuilder.PlaceholdersPresent | bigquery_data_function.py:64-72 | the SQL text references all four placeholders, whatever the table reference |
| QueryBuilder.SqlIndependentOfInputs | bigquery_data_function.py:128-132 | two runs with any two sets of inputs produce identical SQL text |
| QueryBuilder.ValidatedParameters | bigquery_data_function.py:134-141 | after validation each parameter value is the stripped input: non-empty, with no whitespace at either end |
| Credentials.CheckKeyPath | bigquery_data_function.py:107-117 | the stripped path passes exactly when it is non-blank and names a file; a blank path raises the not-set EnvironmentError, checked first; otherwise a missing file raises the not-found EnvironmentError for the stripped path |
| Credentials.KeyPath | bigquery_data_function.py:107 | an unset variable gives the empty path; the path is never longer than the setting and has no whitespace at either end |
| Credentials.NotSetMessageNamesVariable | bigquery_data_function.py:109-112 | the not-set message names the variable, in single quotes |
| Credentials.NotFoundMessage | bigquery_data_function.py:114-117 | the not-found message is the fixed prefix, the path's `repr`, and the fixed suffix, in that order |
| Credentials.NotFoundMessageContents | bigquery_data_function.py:114-117 | the not-found message contains the path's `repr` and names the variable in single quotes |
| Credentials.BuildClient | bigquery_data_function.py:107-123 | no vendor call unless both checks pass; then credentials are loaded from the stripped path with only the read-only scope; a client is built for the configured project only from those credentials; a client is returned only after both calls |
| Credentials.NotFoundMessageRoundTrip | bigquery_data_function.py:114-117 | the not-found message gives back the exact path, whatever characters it contains |
| Credentials.NotFoundMessagePlain | bigquery_data_function.py:115 | an ordinary ASCII path, without quotes, backslashes or control characters, appears verbatim, in single quotes, in the not-found message |
| Credentials.MessagesDiffer | bigquery_data_function.py:108-117 | the not-set and not-found messages can never coincide |
| DataFunction.RunQuery | bigquery_data_function.py:126-144 | exactly one vendor call, submitting the built query through the given client; its result is that call's result |
| DataFunction.Invoke | bigquery_data_function.py:153-185 | at most three vendor calls; if anything escapes, a vendor call was made and no clause matched it |
| DataFunction.MissingInputsReported | bigquery_data_function.py:153-173 | missing inputs produce the missing-input table, naming the fields recoverably, with no vendor call |
| DataFunction.BlankKeyPathReported | bigquery_data_function.py:107-112 | a blank or unset key path produces the configuration-error table with the not-set message, with no vendor call |
| DataFunction.MissingKeyFileReported | bigquery_data_function.py:113-117 | a key path naming no file produces the configuration-error table; its details give the path back; no vendor call |
| DataFunction.CredentialsFailureReported | bigquery_data_function.py:119-122 | a credentials-loading failure is classified by the handlers; the only call made is the load |
| DataFunction.CredentialsValueErrorLabelledAsMissingInputs | bigquery_data_function.py:169-173 | a credentials failure that is a ValueError but not an OSError is labelled "Missing input parameters" |
| DataFunction.QueryOSErrorLabelledAsConfiguration | bigquery_data_function.py:163-167 | an `OSError` raised while running the query is reported under the configuration-error label, with its message as the details |
| DataFunction.ClientFailureReported | bigquery_data_function.py:123 | a client-construction failure is classified; the query is not submitted |
| DataFunction.QueryOutcomeReported | bigquery_data_function.py:158-161 | with a client, the built query is submitted through it; a failure is classified, and a success assigns the returned frame unchanged |
| DataFunction.OutcomeWellFormed | bigquery_data_function.py:163-185 | either the output is assigned, or a vendor exception outside the `Exception` hierarchy escapes; every error table has columns Error and Details, exactly one row, and one of the four labels |
| DataFunction.CallsInOrder | bigquery_data_function.py:153-161 | vendor calls go credentials, then client, then query, each only after the previous step succeeded; the first only after validation and both key-path checks |
| DataFunction.ExampleSuccess | bigquery_data_function.py:153-161 | valid inputs and a stub query returning three rows give exactly those rows, in order |

## Left out

- Reading environment variables (lines 55-57 and 107). Project, dataset, table and the key-path setting are fields of `Config`. The placeholder defaults `your-gcp-project-id`, `your_dataset` and `your_table` are therefore not modelled.
- `os.path.isfile` is the parameter `isFile`, because it queries the filesystem.
- The vendor calls are the abstract parameters of `Sdk`, because they authenticate and use the network: `from_service_account_file`, `bigquery.Client`, `client.query(...)`, `.result()` and `.to_dataframe()`. The last three are one step. Which exception classes they raise is left open.
- The success frame has an opaque type and is passed through unchanged. The pandas structure and the remote schema are not modelled.
- Spotfire injects the inputs and reads `result_df`; in the model this is the signature of `Invoke`. An input that was never injected would raise `NameError` at line 155; that case is not modelled.
- Inputs are `Option<string>`. Python truthiness of non-string values and `str()` of other types are not modelled, except that an absent value prints as `None` (`PyStr`).
- Dates are not parsed. The code sends them to the warehouse as strings.
- `PyRepr.Repr`: the escapes for quotes, the backslash, `\t`, `\n`, `\r`, and ASCII controls and DEL as `\xhh` are modelled. Python also escapes non-printable non-ASCII characters (`\xhh`, `\uhhhh`, `\Uhhhhhhhh`), and the model does not; it prints them as themselves.
- An exception raised while building the pandas error table inside a handler is not modelled.
- Asynchronous interrupts are not modelled. Python can raise `KeyboardInterrupt` from its signal handler at any line, including during validation (lines 81-95) and the key-path checks (lines 107-117). In the model, those steps always end by assigning `result_df`; only a vendor step can raise an exception that escapes.
- Strings holding lone surrogates are not modelled, because a Dafny `char` cannot be a surrogate. On POSIX, `os.environ` decodes undecodable bytes into such surrogates (line 107). A key path containing them therefore cannot be given to `Credentials.KeyPath` or `Credentials.NotFoundMessage`.
