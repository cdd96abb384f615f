/**
  The terminal error handler registered with `app.setErrorHandler` in
  src/app.ts. Whatever a request handler throws ends up here and is turned into
  exactly one reply: 400 with the formatted issues for a Zod validation error,
  500 with a fixed body for everything else. The only other effect is the
  operator-side log, chosen by NODE_ENV.
*/
module ErrorHandler {
  import opened Wrappers
  import opened JsonValues
  import opened DomainErrors

  /** What can reach the handler. Only a `ZodError` is told apart from the rest. */
  datatype Thrown =
    | ZodError(formatted: Json)   // a schema validation failure; `formatted` is what `error.format()` returns
    | Domain(error: DomainError)  // a use case's domain error, e.g. `ResourceNotFoundError`
    | Unknown(detail: Json)       // any other error, with everything it carries (message, stack, own fields)

  /** The reply the handler sends: `reply.status(status).send(body)`. */
  datatype Reply = Reply(status: int, body: Json)

  /** What the handler writes to the operator's console. */
  datatype Log = NoLog | ConsoleError(error: Thrown)

  /** The reply together with the log side effect of the same call. */
  datatype Outcome = Outcome(reply: Reply, log: Log)

  const ProductionMode: string := "production"
  const ValidationMessage: string := "Validation error"
  const InternalMessage: string := "Internal server error"

  const BadRequest: int := 400
  const InternalServerError: int := 500

  /** `error instanceof ZodError`. */
  predicate IsZodError(error: Thrown)
  {
    error.ZodError?
  }

  /** `{ message: "Validation error", issues: <formatted issues> }`. */
  function ValidationBody(issues: Json): (body: Json)
    ensures Keys(body) == ["message", "issues"]
    ensures Get(body, "message") == Some(JString(ValidationMessage))
    ensures Get(body, "issues") == Some(issues)
  {
    var ms := [Member("message", JString(ValidationMessage)), Member("issues", issues)];
    assert ms[0].key != "issues" && ms[1] == Member("issues", issues);
    JObject(ms)
  }

  /** `{ message: "Internal server error" }`. */
  function InternalErrorBody(): (body: Json)
    ensures Keys(body) == ["message"]
    ensures Get(body, "message") == Some(JString(InternalMessage))
  {
    var ms := [Member("message", JString(InternalMessage))];
    assert ms[1..] == [];
    JObject(ms)
  }

  /**
    The handler callback. `nodeEnv` is `env.NODE_ENV`; `request` is the
    `_request` argument, which the callback never looks at.
  */
  function HandleError<Request>(nodeEnv: string, error: Thrown, request: Request): (o: Outcome)
    // every error gets a reply, and its status is 400 or 500
    ensures o.reply.status == BadRequest <==> IsZodError(error)
    ensures o.reply.status == InternalServerError <==> !IsZodError(error)
    // a validation error is answered with its message and its issues, nothing else
    ensures IsZodError(error) ==>
              && Keys(o.reply.body) == ["message", "issues"]
              && Get(o.reply.body, "message") == Some(JString(ValidationMessage))
              && Get(o.reply.body, "issues") == Some(error.formatted)
    // anything else gets the fixed message and nothing else
    ensures !IsZodError(error) ==>
              && Keys(o.reply.body) == ["message"]
              && Get(o.reply.body, "message") == Some(JString(InternalMessage))
    // the whole error goes to the console exactly when it is not a validation
    // error and the service is not running in production
    ensures o.log.ConsoleError? <==> !IsZodError(error) && nodeEnv != ProductionMode
    ensures o.log.ConsoleError? ==> o.log.error == error
  {
    if IsZodError(error) then
      Outcome(Reply(BadRequest, ValidationBody(error.formatted)), NoLog)
    else
      var log := if nodeEnv != ProductionMode then ConsoleError(error) else NoLog;
      Outcome(Reply(InternalServerError, InternalErrorBody()), log)
  }

  /**
    Nothing of a non-validation error reaches the caller: the only strings in
    its reply body are the key "message" and the fixed message.
  */
  lemma InternalReplyDisclosesNothing<Request>(nodeEnv: string, error: Thrown, request: Request)
    requires !IsZodError(error)
    ensures Strings(HandleError(nodeEnv, error, request).reply.body) == {"message", InternalMessage}
  {
  }

  /** In particular, a string the error carries that is not one of those two is absent from the body. */
  lemma DetailDoesNotLeak<Request>(nodeEnv: string, detail: Json, request: Request, secret: string)
    requires secret in Strings(detail)
    requires secret != "message" && secret != InternalMessage
    ensures secret !in Strings(HandleError(nodeEnv, Unknown(detail), request).reply.body)
  {
  }

  /** Two errors that are not validation errors get the same reply, whatever they carry. */
  lemma InternalReplyIsUniform<Request>(nodeEnv: string, e1: Thrown, e2: Thrown, request: Request)
    requires !IsZodError(e1) && !IsZodError(e2)
    ensures HandleError(nodeEnv, e1, request).reply == HandleError(nodeEnv, e2, request).reply
  {
  }

  /**
    The strings in a validation reply are the two keys, the fixed message and
    exactly the strings of the formatted issues.
  */
  lemma ValidationReplyCarriesOnlyIssues<Request>(nodeEnv: string, issues: Json, request: Request)
    ensures Strings(HandleError(nodeEnv, ZodError(issues), request).reply.body)
            == {"message", ValidationMessage, "issues"} + Strings(issues)
  {
  }

  /** NODE_ENV and the request only decide what is logged, never the reply. */
  lemma ReplyIgnoresModeAndRequest<Q1, Q2>(env1: string, env2: string, error: Thrown, q1: Q1, q2: Q2)
    ensures HandleError(env1, error, q1).reply == HandleError(env2, error, q2).reply
  {
  }

  /**
    A `ResourceNotFoundError` is not a `ZodError`: it is answered 500 with the
    fixed body, like any unexpected error, not with a 404.
  */
  lemma ResourceNotFoundIsInternalError<Request>(nodeEnv: string, request: Request)
    ensures HandleError(nodeEnv, Domain(ResourceNotFound), request).reply
            == Reply(InternalServerError, InternalErrorBody())
  {
  }
}
