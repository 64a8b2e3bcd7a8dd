/** Shared vocabulary of the Express handlers: optional values, the HTTP
    status codes the controllers answer with, and the shape of a reply. */
module Http {

  datatype Option<+T> = None | Some(value: T)

  /** The status codes the handlers send: 200, 201, 400, 401, 403, 404 and 500. */
  datatype Status = Ok | Created | BadRequest | Unauthorized | Forbidden | NotFound | InternalError

  /** A handler's reply: a success status with its message and JSON payload,
      an error status with its message, or the 400 reply that carries the
      request validator's error list. */
  datatype Result<+T> =
    | Success(status: Status, message: string, value: T)
    | Failure(status: Status, message: string)
    | Invalid(errors: seq<string>)
}
