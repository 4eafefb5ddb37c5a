/** The ready-made handlers callers may install: the success check, the
    JSON-decoding handler built on it, and the pass-through auth handler. */
module Extras {
  import opened Errors

  /** What the transport returns, as far as the handlers look at it. */
  datatype Response = Response(ok: bool, statusCode: int, content: string, url: string)

  /** `handler_check_ok`: a successful response passes through unchanged;
      otherwise 401 and 403 raise the auth error and every other status the
      general request error, both carrying the status and the body. */
  function CheckOk(resp: Response): (r: Result<Response>)
    ensures r.Ok? <==> resp.ok
    ensures r.Ok? ==> r.value == resp
    ensures r.Err? ==> (r.error.RequestAuthError? <==> resp.statusCode in {401, 403})
    ensures r.Err? ==> (r.error.RequestError? || r.error.RequestAuthError?)
                       && r.error.code == resp.statusCode && r.error.content == resp.content
                       && RequestMessage(r.error) ==
                            if resp.statusCode in {401, 403} then "Authentication failed"
                            else "HTTPError during request to " + resp.url
  {
    if !resp.ok then
      if resp.statusCode == 401 || resp.statusCode == 403 then
        Err(RequestAuthError(resp.statusCode, resp.content))
      else
        Err(RequestError("HTTPError during request to " + resp.url, resp.statusCode, resp.content))
    else
      Ok(resp)
  }

  /** The result of the decoding handler: the decoded value, or the raw
      body when it is not valid JSON. */
  datatype Body<J> = Decoded(value: J) | Raw(content: string)

  /** `handler_json_decode`: the success check first, then the decoded body
      with the status code; a body that fails to decode is returned as it
      is. `decode` stands for `resp.json()`, None meaning ValueError. */
  function JsonDecode<J>(resp: Response, decode: string -> Option<J>): (r: Result<(Body<J>, int)>)
    ensures !resp.ok ==> r.Err? && r.error == CheckOk(resp).error
    ensures resp.ok ==> r.Ok? && r.value.1 == resp.statusCode
    ensures resp.ok && decode(resp.content).Some? ==> r.value.0 == Decoded(decode(resp.content).value)
    ensures resp.ok && decode(resp.content).None? ==> r.value.0 == Raw(resp.content)
  {
    match CheckOk(resp)
    case Err(e) => Err(e)
    case Ok(checked) =>
      match decode(checked.content)
      case Some(v) => Ok((Decoded(v), checked.statusCode))
      case None => Ok((Raw(checked.content), checked.statusCode))
  }

  /** `no_auth`: the request goes out untouched. */
  function NoAuth<R>(request: R): (r: R)
    ensures r == request
  {
    request
  }
}
