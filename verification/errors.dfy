/** The errors a request can end in (game-tip-service.py). */
module Errors {

  datatype Error =
      /** `ObjectId(raw)` raised on a malformed path or query parameter. */
    | InvalidId(raw: string)
      /** The request body failed its schema; the failing fields in declaration order. */
    | ValidationError(fields: seq<string>)
      /** The like increment modified nothing (raised with status 304). */
    | NotModified(id: string)
      /** The liked tip could not be fetched again (raised with status 404). */
    | NotFound(id: string)
      /** A report names an unknown tip, or the new report could not be fetched (status 422). */
    | UnprocessableEntity(id: string)
      /** The store refused a write (duplicate key, non-numeric increment, ...). */
    | PersistenceError(detail: string)
}
