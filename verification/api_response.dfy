/** The immutable response record handed back to callers. */
module ApiResponse {

  /** Raw body and HTTP status code, exactly as the transport reported them. */
  datatype Response = Response(body: string, statusCode: int)
}
