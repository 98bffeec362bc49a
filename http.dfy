/**
 * The HTTP shapes the controllers read and write: the parts of a Symfony Request they look
 * at, and a JsonResponse as a status and one of the payloads the core produces.
 */
module Http {
  import opened Wrappers
  import opened PhpValues
  import opened Errors
  import opened ConversionDto

  /** A decoded JSON document: a scalar, or an object/array with scalar entries. */
  datatype Json = JsonScalar(value: Scalar) | JsonObject(entries: Fields)

  /** The request content: empty, not valid JSON, or a JSON document. */
  datatype Body = NoContent | Malformed | Decoded(json: Json)

  /**
   * What a controller reads from a Request. Header names are case-insensitive in Symfony's
   * HeaderBag, so X-CSRF-TOKEN and X-CSRF-Token name one header, `csrfToken`.
   */
  datatype Request = Request(query: Fields, csrfToken: Option<string>, acceptLanguage: Option<string>, body: Body)

  /** The `details` of an error: the violation list or the exception's message. */
  datatype Details = ViolationList(violations: seq<Violation>) | Message(exception: Exception)

  datatype Payload =
    | Converted(response: ConversionResponse)                 // the conversion result
    | ErrorBody(error: string)                                // {error} / ErrorResponse
    | DetailedError(error: string, details: Details)          // {error, details}
    | TokenBody(token: string)                                // CsrfTokenResponse
    | SessionBody(authenticated: bool, user: Option<string>)  // SessionResponse
    | LoginBody(ok: bool, user: Option<string>)               // LoginResponse
    | UncaughtTypeError                                       // the framework's error page

  datatype Response = Response(status: int, payload: Payload)
}
