/**
 * The three vendor calls the data function makes, as abstract steps: each
 * returns an opaque value or raises an exception the model does not fix.
 */
module Vendor {
  import opened Exceptions
  import opened QueryBuilder

  /**
   * `service_account.Credentials.from_service_account_file(path, scopes=...)`,
   * `bigquery.Client(project=..., credentials=...)` and
   * `client.query(sql, job_config=...).result().to_dataframe()`.
   */
  datatype Sdk<!Cred, !Client, Frame> = Sdk(
    fromServiceAccountFile: (string, seq<string>) -> Attempt<Cred>,
    newClient: (string, Cred) -> Attempt<Client>,
    runQuery: (Client, Query) -> Attempt<Frame>)

  /** One vendor call, with the arguments it was given. */
  datatype Call<Cred, Client> =
    | LoadCredentials(path: string, scopes: seq<string>)
    | CreateClient(project: string, credentials: Cred)
    | SubmitQuery(client: Client, query: Query)

  /** A step's result with the vendor calls it made, in order. */
  datatype Traced<T, Cred, Client> = Traced(attempt: Attempt<T>, calls: seq<Call<Cred, Client>>)
}
