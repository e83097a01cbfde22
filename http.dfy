/** The HTTP answers of the gin handlers: a status code and either the
    JSON document the handler renders or the text of its `error` field. */
module Http {
  import opened Wrappers

  const StatusOK: nat := 200
  const StatusNoContent: nat := 204
  const StatusBadRequest: nat := 400
  const StatusInternalServerError: nat := 500

  datatype Response<+T> = Response(status: nat, body: Result<T>)
  {
    /** A 200 answer carrying a document. */
    predicate IsOk() { status == StatusOK && body.Ok? }
  }

  function Success<T>(value: T): (r: Response<T>)
    ensures r.IsOk() && r.body.value == value
  {
    Response(StatusOK, Ok(value))
  }

  function Reject<T>(status: nat, error: string): (r: Response<T>)
    requires status != StatusOK
    ensures !r.IsOk() && r.status == status && r.body == Err(error)
  {
    Response(status, Err(error))
  }
}
