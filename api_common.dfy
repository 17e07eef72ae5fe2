/** What the route handlers share: the outcome of a store call, handed in as
    a value, and the JSON reply with its status. */
module ApiCommon {

  import opened Wrappers

  /** `{ data, error }` of an `.insert(...)`/`.update(...)` followed by
      `.select()`: an error, or the rows that came back. */
  datatype StoreResult<R> = StoreError | Rows(rows: seq<R>)

  /** A reply: an error body with its status, or a 200 body. */
  datatype Reply<B> = Failure(status: int, error: string) | Ok(body: B)

  /** The message of every outer `catch`, here reached when the request body
      is not JSON. */
  const InternalError: string := "Erro interno do servidor"

  /** `data[0]`: `undefined`, and so absent from the JSON, when no row came
      back. */
  function First<R>(rows: seq<R>): Option<R> {
    if rows == [] then None else Some(rows[0])
  }
}
