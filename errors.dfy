/** The exception taxonomy of the client, as tagged values.
    Each variant carries the fields its exception class stores; message
    formatting beyond those fields is not modelled. */
module Errors {

  datatype Error =
    /** FabricatorUsageError: misuse of the builder surface. */
    | UsageError(message: string)
    /** FabricatorNotImplementedError: unknown method or endpoint. */
    | NotImplementedError(message: string)
    /** FabricatorParamValidationError: a required or path parameter is missing. */
    | ParamValidationError(param: string)
    /** FabricatorRequestError: a non-success response, with status and body. */
    | RequestError(message: string, code: int, content: string)
    /** FabricatorRequestAuthError: a 401 or 403 response. */
    | RequestAuthError(code: int, content: string)
    /** Python's TypeError: a missing method list, or a keyword given twice. */
    | TypeError(message: string)
    /** Python's IndexError, raised when an endpoint without methods is called. */
    | IndexError(message: string)

  /** The `message` attribute of the request errors: an auth error always
      reads "Authentication failed", whatever was passed in. */
  function RequestMessage(e: Error): (m: string)
    requires e.RequestError? || e.RequestAuthError?
  {
    if e.RequestAuthError? then "Authentication failed" else e.message
  }

  datatype Option<+T> = None | Some(value: T)

  datatype Result<+T> = Ok(value: T) | Err(error: Error)

  datatype Outcome = Pass | Fail(error: Error)
}
