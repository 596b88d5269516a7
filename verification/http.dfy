/**
 * The HTTP error classes of packages/core/src/libs/errors and the response
 * envelope every API handler returns.
 */
module Http {

  /** An error that escapes a handler, with the status code the error middleware answers. */
  datatype HttpError =
    | ValidationError(message: string)
    | NotFoundError(message: string)
    | UnauthorizedError(message: string)
      /** Any other throw (a failed AWS call, a TypeError, a RangeError): it carries no status code. */
    | InternalError(reason: string)
  {
    function StatusCode(): nat {
      match this
      case ValidationError(_) => 401
      case NotFoundError(_) => 404
      case UnauthorizedError(_) => 401
      case InternalError(_) => 500
    }
  }

  /** The default messages of the three error classes. */
  const DefaultValidation := ValidationError("Validation")
  const DefaultNotFound := NotFoundError("Not Found")
  const DefaultUnauthorized := UnauthorizedError("Unauthorized")

  const Created: nat := 201
  const NoContent: nat := 204
  const Ok: nat := 200
}
