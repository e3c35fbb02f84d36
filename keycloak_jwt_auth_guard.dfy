/** The guard in front of the Keycloak strategy: public routes pass, and
    when authentication fails the 401 carries the most specific message
    available. */
module KeycloakJwtAuthGuard {
  import opened Wrappers
  import opened Http

  datatype JsError = JsError(message: string)

  /** The `info` the strategy reports: nothing, a text, or an error. */
  datatype Info = NoInfo | InfoText(text: string) | InfoError(message: string)

  const DefaultMessage := "Authentication failed"

  /** `err?.message || (typeof info === 'string' ? info : info?.message || 'Authentication failed')` */
  function FailureMessage(err: Option<JsError>, info: Info): (m: string)
    ensures err.Some? && err.value.message != "" ==> m == err.value.message
    ensures (err.None? || err.value.message == "") && info.InfoText? ==> m == info.text
    ensures (err.None? || err.value.message == "") && info.InfoError? && info.message != ""
            ==> m == info.message
    ensures (err.None? || err.value.message == "") && (info.NoInfo? || info == InfoError(""))
            ==> m == DefaultMessage
  {
    if err.Some? && err.value.message != "" then err.value.message
    else match info
      case InfoText(t) => t
      case InfoError(msg) => if msg != "" then msg else DefaultMessage
      case NoInfo => DefaultMessage
  }

  /** The message is empty only when the strategy reported an empty text and
      no error message. */
  lemma EmptyMessageOnlyFromEmptyInfo(err: Option<JsError>, info: Info)
    requires FailureMessage(err, info) == ""
    ensures info == InfoText("") && (err.None? || err.value.message == "")
  {
  }

  /** `handleRequest`: any error, or no user, becomes a 401; otherwise the
      user is returned as it is. */
  function HandleRequest<U>(err: Option<JsError>, user: Option<U>, info: Info): (r: Result<U, HttpError>)
    ensures err.Some? || user.None? ==> r == Failure(Unauthorized(FailureMessage(err, info)))
    ensures err.None? && user.Some? ==> r == Success(user.value)
  {
    if err.Some? || user.None? then Failure(Unauthorized(FailureMessage(err, info)))
    else Success(user.value)
  }

  /** What the Passport strategy hands to `handleRequest` for a request. */
  datatype StrategyOutcome<U> = StrategyOutcome(err: Option<JsError>, user: Option<U>, info: Info)

  /** `canActivate`: public when the handler, or failing that the class, is
      marked public; otherwise the outcome of the Passport strategy decides. */
  function CanActivate<U>(meta: Metadata<bool>, strategy: StrategyOutcome<U>): (r: Result<bool, HttpError>)
    ensures AllAndOverride(meta) == Some(true) ==> r == Success(true)
    ensures AllAndOverride(meta) != Some(true) ==>
              (r == Success(true) <==> strategy.err.None? && strategy.user.Some?)
    ensures AllAndOverride(meta) != Some(true) && r.Failure?
            ==> r.error == Unauthorized(FailureMessage(strategy.err, strategy.info))
    ensures r.Success? ==> r.value
  {
    if AllAndOverride(meta) == Some(true) then Success(true)
    else match HandleRequest(strategy.err, strategy.user, strategy.info)
      case Success(_) => Success(true)
      case Failure(e) => Failure(e)
  }

  /** A class marked public opens every handler that carries no marker of its
      own, but a handler explicitly marked non-public stays guarded. */
  lemma ClassMarkerAndHandlerOverride<U>(strategy: StrategyOutcome<U>)
    ensures CanActivate(Metadata(None, Some(true)), strategy) == Success(true)
    ensures CanActivate(Metadata(Some(false), Some(true)), strategy)
            == CanActivate(Metadata(None, None), strategy)
  {
  }
}
