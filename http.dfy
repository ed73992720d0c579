/** The HTTP side of the controllers: the status codes they answer with and
    what a handler can catch. */
module Http {

  const OK: int := 200
  const Created: int := 201
  const BadRequest: int := 400
  const NotFound: int := 404
  const ServerError: int := 500

  /** What a handler catches: the validation error of a schema, with the
      path of each issue it lists, or an `Error` thrown with a message. */
  datatype Failure = ValidationError(issues: seq<string>) | Thrown(message: string)
}
