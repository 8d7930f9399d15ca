/** How a handler ends: `next()` or a response on success, `next(err)` on failure. */
module Errors {
  import opened Js

  /** What a handler passes to `next(err)`. */
  datatype Failure =
      /** `new AppError(message, statusCode)`; the status is absent when the
          call site leaves it out. */
    | AppError(message: string, statusCode: Option<int>)
      /** A rejection of `jwt.verify`, by the library's error name. */
    | JwtError(name: string)
      /** A rejection of a document `save()`, or of an update, by the schema's validators. */
    | ValidationError
      /** A value Mongoose cannot cast to the schema type of the path it is set on. */
    | CastError
      /** A JavaScript exception thrown by the handler's own code. */
    | ScriptError(name: string)

  /** The response a handler sends, or the error it passes on. */
  datatype Result<+T> = Ok(value: T) | Err(error: Failure)

  /** A handler's effect on a collection together with its result. */
  datatype Effect<+S, +T> = Effect(store: S, reply: Result<T>)
}
