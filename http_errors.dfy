/** The HTTP errors the API raises. */
module HttpErrors {
  /** An `HTTPException`: its status, its detail and whether it carries a `WWW-Authenticate: Bearer` header. */
  datatype HttpError = HttpError(status: int, detail: string, bearerChallenge: bool)
}
