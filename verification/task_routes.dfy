/** The request path of the task API: `checkJwt` is mounted in front of
    every task route, and `validateTask` runs after it only on create and
    update. This composes the two middlewares into what a request meets
    before a controller runs; the controllers themselves are not modelled. */
module TaskRoutes {
  import opened Wrappers
  import K = KeycloakMiddleware
  import V = ValidationMiddleware

  /** The five task routes. */
  datatype Route = GetAllTasks | GetTaskById | CreateTask | UpdateTask | DeleteTask

  /** The routes that run `validateTask` before their controller. */
  predicate Validated(route: Route)
  {
    route == CreateTask || route == UpdateTask
  }

  /** A JSON response body sent by a middleware. */
  datatype Reply = MessageBody(message: string) | ErrorsBody(errors: seq<V.FieldError>)

  /** Either a middleware answered, or the controller of `route` runs with
      `req.user` set to `user`. */
  datatype Handling = Responded(status: nat, reply: Reply) | Handled(route: Route, user: K.Claims)

  /** A request to `route` with the given Authorization header and body. */
  function Dispatch(route: Route, authorization: Option<string>, body: V.Body,
                    jose: K.Jose, isIso8601: string -> bool): (h: Handling)
    ensures h.Responded? ==> h.status == K.Unauthorized || (Validated(route) && h.status == 400)
    ensures h.Responded? && h.status == 400 ==> h.reply.ErrorsBody? && h.reply.errors != []
    ensures h.Handled? ==> h.route == route
  {
    match K.Gate(authorization, jose).outcome
    case Reject(status, message) => Responded(status, MessageBody(message))
    case Admit(claims) =>
      if Validated(route) then
        match V.ValidateTask(body, isIso8601)
        case BadRequest(status, errors) => Responded(status, ErrorsBody(errors))
        case Next => Handled(route, claims)
      else
        Handled(route, claims)
  }

  /** A controller runs, with the verified claims as `req.user`, exactly
      when every step of the gate succeeded and, on create and update, the
      body is a valid task. */
  lemma HandledIffAuthenticatedAndValid(route: Route, authorization: Option<string>, body: V.Body,
                                        jose: K.Jose, isIso8601: string -> bool, claims: K.Claims)
    ensures Dispatch(route, authorization, body, jose, isIso8601) == Handled(route, claims) <==>
            K.AllStepsSucceed(authorization, jose, claims) &&
            (Validated(route) ==> V.ValidTask(body, isIso8601))
  {
    K.AdmittedIffAllStepsSucceed(authorization, jose, claims);
    V.ValidateTaskNextIffValid(body, isIso8601);
  }

  /** The gate decides first: a rejected token gets its 401 whatever the
      body, so an unauthenticated request never learns about validation. */
  lemma GateBeforeValidation(route: Route, authorization: Option<string>, body1: V.Body, body2: V.Body,
                             jose: K.Jose, isIso8601: string -> bool)
    requires K.Gate(authorization, jose).outcome.Reject?
    ensures Dispatch(route, authorization, body1, jose, isIso8601)
            == Dispatch(route, authorization, body2, jose, isIso8601)
            == Responded(401, MessageBody(K.Gate(authorization, jose).outcome.message))
  {
  }

  /** A 400 answer comes only from create or update, only after the gate
      admitted the request, and only for an invalid body. */
  lemma BadRequestOnlyForInvalidBody(route: Route, authorization: Option<string>, body: V.Body,
                                     jose: K.Jose, isIso8601: string -> bool)
    requires Dispatch(route, authorization, body, jose, isIso8601).Responded?
    requires Dispatch(route, authorization, body, jose, isIso8601).status == 400
    ensures K.Gate(authorization, jose).outcome.Admit?
    ensures Validated(route) && !V.ValidTask(body, isIso8601)
  {
    V.ValidateTaskNextIffValid(body, isIso8601);
  }

  /** Listing, reading and deleting do not look at the body. */
  lemma BodyIgnoredOffWriteRoutes(route: Route, authorization: Option<string>, body1: V.Body, body2: V.Body,
                                  jose: K.Jose, isIso8601: string -> bool)
    requires !Validated(route)
    ensures Dispatch(route, authorization, body1, jose, isIso8601)
            == Dispatch(route, authorization, body2, jose, isIso8601)
  {
  }
}
