/** The request and response vocabulary the handlers share: query
    parameters as a map, gin's Query/DefaultQuery, and a response reduced to
    its status code and its message (the "error" or "message" field). */
module Http {
  import opened Wrappers
  import opened ErrorHandler
  import opened Errors

  datatype Response = Response(status: int, message: string)

  /** A handler that writes httpErr from ToHTTPError. */
  function FromError(e: ErrorResponse): Response
  {
    Response(e.statusCode, e.message)
  }

  /** A handler that writes ToHTTPError of a non-nil error. */
  function ErrorReply(e: Error): Response
  {
    FromError(ToHTTPError(Some(e)))
  }

  type Query = map<string, string>

  /** c.Query: "" when the key is absent. */
  function Param(q: Query, key: string): string
  {
    if key in q then q[key] else ""
  }

  /** c.DefaultQuery: the default only when the key is absent; a key present
      with an empty value yields "". */
  function DefaultParam(q: Query, key: string, default: string): string
  {
    if key in q then q[key] else default
  }

  const InternalServerError := "Internal server error"
  const TooManyRequestsMessage := "Too many requests. Please try again later"
  const InvalidRequestFormat := "Invalid request format"
}
