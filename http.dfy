/**
 * What a route handler answers: a JSON body, or an error status with the
 * message it carries.
 */
module Http {
  datatype Response<T> = Success(body: T) | Failure(status: nat, message: string)

  const BadRequest := 400
  const Unauthorized := 401
  const Forbidden := 403
  const ServerError := 500
}
