/**
 * What the REST controllers see of a request and send back: the authenticated caller (the
 * `Usuario` principal's id and username, and the names of its granted authorities) and the
 * `ResponseEntity` chosen, with its HTTP status.
 */
module Web {
  import opened Store

  /** The caller as Spring Security hands it to a controller. */
  datatype Caller = Caller(principalId: int, username: string, authorities: set<string>)

  /**
   * A response: `ok`, `created`, `noContent`, `badRequest` with the exception's message,
   * `notFound`, the `403` of a refused `@PreAuthorize`, or the `500` of an exception no handler
   * catches.
   */
  datatype Reply<T> =
    | OkReply(body: T)
    | Created(body: T)
    | NoContent
    | BadRequest(failure: Failure)
    | NotFound
    | Forbidden
    | ServerError(failure: Failure)

  /** The HTTP status code of a reply. */
  function StatusCode<T>(r: Reply<T>): (code: int)
    ensures 200 <= code < 600
    ensures code < 300 <==> r.OkReply? || r.Created? || r.NoContent?
  {
    match r
    case OkReply(_) => 200
    case Created(_) => 201
    case NoContent => 204
    case BadRequest(_) => 400
    case Forbidden => 403
    case NotFound => 404
    case ServerError(_) => 500
  }

  /** `hasRole(role)`: Spring prefixes the role with `ROLE_` before looking among the authorities. */
  predicate HasRole(c: Caller, role: string) {
    "ROLE_" + role in c.authorities
  }
}
