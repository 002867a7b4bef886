/** What the tools receive from the monitoring service's HTTP client. The client
    itself (requests, authentication, the read-then-write of an update) is not
    modelled: its outcome is a parameter of each handler. */
module Remote {
  import opened Fields

  /** The keys of a monitor record that the tools read; each may be missing,
      null, or hold a value of the type the service documents. */
  datatype Monitor = Monitor(
    id: Field<int>,
    name: Field<string>,
    monitorType: Field<string>,
    overallState: Field<string>,
    priority: Field<int>,
    query: Field<string>,
    message: Field<string>,
    tags: Field<seq<string>>)

  /** An exception raised inside a handler's `try`: an `httpx.HTTPStatusError`
      (status code and `str(e)`) or any other exception (`str(e)`). */
  datatype Failure = HttpStatusError(status: int, msg: string) | OtherError(msg: string)

  /** The outcome of one remote call: its decoded result, or the exception it raised. */
  datatype Outcome<+T> = Ok(value: T) | Fail(failure: Failure)
}
