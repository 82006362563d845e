/** Shared shapes of the bridge and compliance servers: optional values,
    results, and the error responses the HTTP handlers write back. */
module Protocols {

  datatype Option<+T> = None | Some(value: T)

  datatype Result<+T, +E> = Ok(value: T) | Err(error: E)

  /** Raw bytes, as in a JSON raw message or an HTTP body. */
  type Bytes = seq<bv8>

  /** The error responses a handler can write. `OtherError` stands for any
      further error response an operation body's own validation may return;
      those validations are not part of this model. */
  datatype ErrorResponse =
    | InvalidParameter(field: string, value: string, message: string)
    | MissingParameter(name: string)
    | InternalServerError
    | OtherError(code: string, message: string)
}
