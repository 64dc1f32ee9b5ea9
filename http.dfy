/** What the FastAPI services answer when they fail. */
module Http {
  /** An `HTTPException(status_code, detail)`. */
  datatype HttpError = HttpError(status: int, detail: string)

  /** FastAPI's answer when an endpoint raises anything other than an HTTPException. */
  const InternalServerError: HttpError := HttpError(500, "Internal Server Error")
}
