/** HTTP errors thrown by guards and services, and the route metadata lookup
    that guards perform through Nest's Reflector. */
module Http {
  import opened Wrappers

  datatype HttpError =
    | Unauthorized(message: string)   // 401
    | Forbidden(message: string)      // 403

  /** The value a decorator attached to the route handler and to its
      controller class; None where the target carries no value. */
  datatype Metadata<T> = Metadata(handler: Option<T>, klass: Option<T>)

  /** `reflector.get(key, context.getHandler())` */
  function FromHandler<T>(m: Metadata<T>): Option<T> {
    m.handler
  }

  /** `reflector.getAllAndOverride(key, [handler, class])`: the handler's
      value when it has one, otherwise the class's. */
  function AllAndOverride<T>(m: Metadata<T>): (r: Option<T>)
    ensures m.handler.Some? ==> r == m.handler
    ensures m.handler.None? ==> r == m.klass
  {
    if m.handler.Some? then m.handler else m.klass
  }
}
